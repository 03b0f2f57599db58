/**
 * `base_selection`: the step of a model search that decides which candidate
 * parameter sets survive. It checks the fitness array against the candidates,
 * ranks the candidates with a sorting function (by default the Pareto front) and
 * hands the ranking to a caller-supplied selection strategy.
 *
 * The function is pure: it rebinds its arguments one after the other and either
 * returns the selected candidates or raises an error, modelled here as `Result`.
 */
module ModelSelection {
  import opened Wrappers
  import opened FitnessArray

  /** A sorting function: score weights and a fitness array to indices of candidates. */
  type Ranker<!T> = (seq<real>, Fitness<T>) -> seq<nat>

  /**
   * A selection strategy: the candidates, the ranked indices (`None` when it is
   * called without them) and the keyword options, to the surviving candidates.
   */
  type Selector<!P, -K> = (seq<P>, Option<seq<nat>>, K) -> seq<P>

  /** The `sort_fitness` argument: `None`, a name, or a function. */
  datatype SortFitness<!T> = NoSort | Named(name: string) | Ranking(rank: Ranker<T>)

  /** The errors `base_selection` raises. */
  datatype SelectionError =
    | /** `fitnesses.shape[1]` read on an array with fewer than two axes (an IndexError). */
      IndexOutOfRange(shape: seq<nat>)
    | /** After orientation the array is not two-dimensional with one row per candidate. */
      ShapeError(shape: seq<nat>)
    | /** The column count differs from the number of score weights. */
      WeightError(columns: nat, weights: nat)
    | /** `sort_fitness` is a name other than the sentinel, which cannot be called (a TypeError). */
      NotCallable(name: string)

  /** The one name `sort_fitness` may be given instead of a function. */
  const ParetoFrontName: string := "pareto_front"

  /** Replaces the sentinel name by the built-in Pareto-front sort; leaves anything else alone. */
  function ResolveSort<T>(sortFitness: SortFitness<T>, paretoFront: Ranker<T>): (r: SortFitness<T>)
    ensures r.NoSort? <==> sortFitness.NoSort?
    ensures r.Named? ==> sortFitness.Named? && r.name == sortFitness.name && r.name != ParetoFrontName
    ensures sortFitness.Ranking? ==> r.Ranking? && r.rank == sortFitness.rank
    ensures sortFitness.Named? && sortFitness.name == ParetoFrontName ==> r.Ranking? && r.rank == paretoFront
    ensures sortFitness.Named? && sortFitness.name != ParetoFrontName ==> r == sortFitness
  {
    if sortFitness.Named? && sortFitness.name == ParetoFrontName then Ranking(paretoFront) else sortFitness
  }

  /** The score weights in force: the ones given, or a single weight of 1. */
  function Weights(scoreWeights: Option<seq<real>>): (r: seq<real>)
    ensures scoreWeights.None? ==> |r| == 1 && r[0] == 1.0
    ensures scoreWeights.Some? ==> r == scoreWeights.value
  {
    if scoreWeights.None? then [1.0] else scoreWeights.value
  }

  /**
   * The transpose rule: an array whose second axis has one entry per candidate
   * and whose first axis does not is read as objectives by candidates and
   * transposed; every other array is left as it is.
   */
  function Orient<T>(fitnesses: Fitness<T>, n: nat): (r: Fitness<T>)
    requires fitnesses.Valid() && |fitnesses.Shape()| >= 2
    ensures r.Valid() && |r.Shape()| == |fitnesses.Shape()|
    ensures r == fitnesses || r == fitnesses.Transpose()
    ensures fitnesses.Shape()[0] == n ==> r == fitnesses
    ensures fitnesses.Shape()[1] != n ==> r == fitnesses
    ensures fitnesses.Grid? ==>
      (r.Shape()[0] == n <==> fitnesses.Shape()[0] == n || fitnesses.Shape()[1] == n)
  {
    var shape := fitnesses.Shape();
    if shape[1] == n && shape[0] != n then fitnesses.Transpose() else fitnesses
  }

  /**
   * The column count of a two-dimensional shape `s` once it is oriented with one
   * row per candidate: the axis that is not the candidates' one.
   */
  function Columns(s: seq<nat>, n: nat): nat
    requires |s| == 2
  {
    if s[0] == n then s[1] else s[0]
  }

  /** True when the fitness array is looked at at all: a strategy is given and sorting is on. */
  predicate Ranked<P, T, K>(modelSelection: Option<Selector<P, K>>, sortFitness: SortFitness<T>) {
    modelSelection.Some? && !sortFitness.NoSort?
  }

  /**
   * `base_selection(params_list, fitnesses, model_selection, sort_fitness,
   * score_weights, **model_selection_kwargs)`. `paretoFront` is the built-in
   * sort the sentinel name stands for. The array must be a well-formed array only
   * when it is examined.
   */
  function BaseSelection<P, T, K>(
    params: seq<P>,
    fitnesses: Fitness<T>,
    modelSelection: Option<Selector<P, K>>,
    sortFitness: SortFitness<T>,
    scoreWeights: Option<seq<real>>,
    kwargs: K,
    paretoFront: Ranker<T>
  ): (r: Result<seq<P>, SelectionError>)
    requires Ranked(modelSelection, sortFitness) ==> fitnesses.Valid()
    ensures r.Err? ==> Ranked(modelSelection, sortFitness)
  {
    var sort := ResolveSort(sortFitness, paretoFront);
    if modelSelection.None? then Ok(params)
    else
      var select := modelSelection.value;
      var weights := Weights(scoreWeights);
      if sort.NoSort? then Ok(select(params, None, kwargs))
      else
        var n := |params|;
        if |fitnesses.Shape()| < 2 then Err(IndexOutOfRange(fitnesses.Shape()))
        else
          var oriented := Orient(fitnesses, n);
          var shape := oriented.Shape();
          if shape[0] != n || |shape| != 2 then Err(ShapeError(shape))
          else if shape[1] != |weights| then Err(WeightError(shape[1], |weights|))
          else match sort
            case Named(name) => Err(NotCallable(name))
            case Ranking(rank) => Ok(select(params, Some(rank(weights, oriented)), kwargs))
  }

  // ---------------------------------------------------------------------------
  // Properties of base_selection
  // ---------------------------------------------------------------------------

  /** Without a selection strategy the candidates come back as they are, whatever the array holds. */
  lemma PassThrough<P, T, K>(
    params: seq<P>, fitnesses: Fitness<T>, sortFitness: SortFitness<T>,
    scoreWeights: Option<seq<real>>, kwargs: K, paretoFront: Ranker<T>)
    ensures BaseSelection<P, T, K>(params, fitnesses, None, sortFitness, scoreWeights, kwargs, paretoFront)
         == Ok(params)
  {
  }

  /** The sentinel name behaves exactly as the built-in Pareto-front sort passed as a function. */
  lemma SentinelIsParetoFront<P, T, K>(
    params: seq<P>, fitnesses: Fitness<T>, modelSelection: Option<Selector<P, K>>,
    scoreWeights: Option<seq<real>>, kwargs: K, paretoFront: Ranker<T>)
    requires modelSelection.Some? ==> fitnesses.Valid()
    ensures BaseSelection(params, fitnesses, modelSelection, Named(ParetoFrontName), scoreWeights, kwargs, paretoFront)
         == BaseSelection(params, fitnesses, modelSelection, Ranking(paretoFront), scoreWeights, kwargs, paretoFront)
  {
  }

  /** Leaving the score weights out is the same as passing the single weight 1. */
  lemma DefaultWeightIsOne<P, T, K>(
    params: seq<P>, fitnesses: Fitness<T>, modelSelection: Option<Selector<P, K>>,
    sortFitness: SortFitness<T>, kwargs: K, paretoFront: Ranker<T>)
    requires Ranked(modelSelection, sortFitness) ==> fitnesses.Valid()
    ensures BaseSelection(params, fitnesses, modelSelection, sortFitness, None, kwargs, paretoFront)
         == BaseSelection(params, fitnesses, modelSelection, sortFitness, Some([1.0]), kwargs, paretoFront)
  {
  }

  /** Transposing is needed exactly for a two-dimensional array whose candidates lie along its columns. */
  lemma OrientFixesRows<T>(fitnesses: Fitness<T>, n: nat)
    requires fitnesses.Valid() && fitnesses.Grid?
    ensures var s := fitnesses.Shape();
      var o := Orient(fitnesses, n);
      o.Grid? && o.Shape() == (if s[0] != n && s[1] == n then [s[1], s[0]] else s)
    ensures var s := fitnesses.Shape();
      s[0] != n && s[1] == n ==> Orient(fitnesses, n).Transpose() == fitnesses
    ensures Orient(Orient(fitnesses, n), n) == Orient(fitnesses, n)
  {
    var s := fitnesses.Shape();
    if s[0] == n {
      assert Orient(fitnesses, n) == fitnesses;
    } else if s[1] != n {
      assert Orient(fitnesses, n) == fitnesses;
    } else {
      var t := fitnesses.Transpose();
      assert t.Shape()[0] == s[1] && t.Shape()[1] == s[0];
      assert t.Shape() == [s[1], s[0]];
      assert Orient(fitnesses, n) == t;
      TransposeInvolutive(fitnesses);
    }
  }

  /** With sorting off, the strategy is called without indices and the array is never examined. */
  lemma UnrankedDispatch<P, T, K>(
    params: seq<P>, fitnesses: Fitness<T>, select: Selector<P, K>,
    scoreWeights: Option<seq<real>>, kwargs: K, paretoFront: Ranker<T>)
    ensures BaseSelection(params, fitnesses, Some(select), NoSort, scoreWeights, kwargs, paretoFront)
         == Ok(select(params, None, kwargs))
  {
  }

  /** An array with fewer than two axes fails at the read of its second axis, and only such an array. */
  lemma IndexOutOfRangeIff<P, T, K>(
    params: seq<P>, fitnesses: Fitness<T>, modelSelection: Option<Selector<P, K>>,
    sortFitness: SortFitness<T>, scoreWeights: Option<seq<real>>, kwargs: K, paretoFront: Ranker<T>)
    requires Ranked(modelSelection, sortFitness) && fitnesses.Valid()
    ensures var r := BaseSelection(params, fitnesses, modelSelection, sortFitness, scoreWeights, kwargs, paretoFront);
      (r.Err? && r.error.IndexOutOfRange?) <==> |fitnesses.Shape()| < 2
    ensures var r := BaseSelection(params, fitnesses, modelSelection, sortFitness, scoreWeights, kwargs, paretoFront);
      |fitnesses.Shape()| < 2 ==> r == Err(IndexOutOfRange(fitnesses.Shape()))
  {
  }

  /**
   * The shape check rejects exactly the arrays with at least two axes that are
   * not two-dimensional, or that have no axis with one entry per candidate.
   */
  lemma ShapeErrorIff<P, T, K>(
    params: seq<P>, fitnesses: Fitness<T>, modelSelection: Option<Selector<P, K>>,
    sortFitness: SortFitness<T>, scoreWeights: Option<seq<real>>, kwargs: K, paretoFront: Ranker<T>)
    requires Ranked(modelSelection, sortFitness) && fitnesses.Valid()
    ensures var r := BaseSelection(params, fitnesses, modelSelection, sortFitness, scoreWeights, kwargs, paretoFront);
      var s := fitnesses.Shape();
      var n := |params|;
      (r.Err? && r.error.ShapeError?) <==> |s| > 2 || (|s| == 2 && s[0] != n && s[1] != n)
  {
  }

  /**
   * Once the rows fit, the weight check rejects exactly the arrays whose other
   * axis differs from the number of weights in force.
   */
  lemma WeightErrorIff<P, T, K>(
    params: seq<P>, fitnesses: Fitness<T>, modelSelection: Option<Selector<P, K>>,
    sortFitness: SortFitness<T>, scoreWeights: Option<seq<real>>, kwargs: K, paretoFront: Ranker<T>)
    requires Ranked(modelSelection, sortFitness) && fitnesses.Valid()
    ensures var r := BaseSelection(params, fitnesses, modelSelection, sortFitness, scoreWeights, kwargs, paretoFront);
      var s := fitnesses.Shape();
      var n := |params|;
      var w := Weights(scoreWeights);
      (r.Err? && r.error.WeightError?) <==> |s| == 2 && (s[0] == n || s[1] == n) && Columns(s, n) != |w|
    ensures var r := BaseSelection(params, fitnesses, modelSelection, sortFitness, scoreWeights, kwargs, paretoFront);
      r.Err? && r.error.WeightError? ==> r.error == WeightError(Columns(fitnesses.Shape(), |params|), |Weights(scoreWeights)|)
  {
  }

  /** A name other than the sentinel passes the checks and then fails when it is called. */
  lemma NotCallableIff<P, T, K>(
    params: seq<P>, fitnesses: Fitness<T>, modelSelection: Option<Selector<P, K>>,
    sortFitness: SortFitness<T>, scoreWeights: Option<seq<real>>, kwargs: K, paretoFront: Ranker<T>)
    requires Ranked(modelSelection, sortFitness) && fitnesses.Valid()
    ensures var r := BaseSelection(params, fitnesses, modelSelection, sortFitness, scoreWeights, kwargs, paretoFront);
      var s := fitnesses.Shape();
      var n := |params|;
      (r.Err? && r.error.NotCallable?) <==>
        |s| == 2 && (s[0] == n || s[1] == n) && Columns(s, n) == |Weights(scoreWeights)|
        && sortFitness.Named? && sortFitness.name != ParetoFrontName
  {
  }

  /**
   * With sorting on and a well-shaped array, the sort receives the weights in
   * force and the array oriented with one row per candidate and one column per
   * weight; the strategy receives the candidates, exactly the sort's indices and
   * the options, and its answer is returned.
   */
  lemma RankedDispatch<P, T, K>(
    params: seq<P>, fitnesses: Fitness<T>, select: Selector<P, K>,
    sortFitness: SortFitness<T>, scoreWeights: Option<seq<real>>, kwargs: K, paretoFront: Ranker<T>)
    requires fitnesses.Valid() && !sortFitness.NoSort?
    ensures var r := BaseSelection(params, fitnesses, Some(select), sortFitness, scoreWeights, kwargs, paretoFront);
      var s := fitnesses.Shape();
      var n := |params|;
      var w := Weights(scoreWeights);
      r.Ok? <==> |s| == 2 && (s[0] == n || s[1] == n) && Columns(s, n) == |w| && !ResolveSort(sortFitness, paretoFront).Named?
    ensures var r := BaseSelection(params, fitnesses, Some(select), sortFitness, scoreWeights, kwargs, paretoFront);
      var n := |params|;
      var w := Weights(scoreWeights);
      r.Ok? ==>
        var m := Orient(fitnesses, n);
        && m.Grid? && |m.rows| == n && m.cols == |w|
        && (|fitnesses.rows| == n ==> m == fitnesses)
        && (|fitnesses.rows| != n ==> m == fitnesses.Transpose())
        && (sortFitness.Ranking? ==> r.value == select(params, Some(sortFitness.rank(w, m)), kwargs))
        && (sortFitness.Named? ==> r.value == select(params, Some(paretoFront(w, m)), kwargs))
  {
  }

  /** Two candidates scored as one objective by two candidates: the array is turned round and accepted. */
  lemma ObjectivesByCandidatesAccepted<P, K>(
    p0: P, p1: P, select: Selector<P, K>, kwargs: K, paretoFront: Ranker<real>)
    ensures BaseSelection([p0, p1], Grid([[0.5, 0.7]], 2), Some(select), Named(ParetoFrontName), None, kwargs, paretoFront)
         == Ok(select([p0, p1], Some(paretoFront([1.0], Grid([[0.5], [0.7]], 1))), kwargs))
  {
    var f: Fitness<real> := Grid([[0.5, 0.7]], 2);
    var t := f.Transpose();
    assert t.rows[0] == [0.5] && t.rows[1] == [0.7];
    assert t == Grid([[0.5], [0.7]], 1);
  }

  /** Two candidates against three rows of scores: neither axis fits, so the shape check fails. */
  lemma MismatchedRowsRejected<P, K>(
    p0: P, p1: P, select: Selector<P, K>, kwargs: K, paretoFront: Ranker<real>)
    ensures BaseSelection([p0, p1], Grid([[0.9], [0.5], [0.7]], 1), Some(select), Named(ParetoFrontName), None, kwargs, paretoFront)
         == Err(ShapeError([3, 1]))
  {
  }
}
