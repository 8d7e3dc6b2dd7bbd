/**
 * The THEBEST search of both programs (ppredict/ppredict.cpp and
 * predict/predict.cpp): a nested loop over every cell `(i, j)` of
 * `[1, gmax] x [1, bmax]` in row-major order, keeping a running best. The
 * update is skipped only when the best so far is strictly cheaper
 * (`if (price1 < price2) continue;`), so on a tie the later cell replaces the
 * earlier one and the search returns the LAST minimal cell.
 *
 * Modelled generically over the objective `f`; each predictor instantiates it.
 * The `DBL_MAX` start value is modelled as "no best yet", which the first
 * cell always replaces.
 */
module GridSearch {

  predicate InGrid(i: int, j: int, gmax: int, bmax: int)
  {
    1 <= i <= gmax && 1 <= j <= bmax
  }

  /** Cell `(i, j)` is visited strictly before cell `(i2, j2)` in row-major order. */
  predicate Before(i: int, j: int, i2: int, j2: int)
  {
    i < i2 || (i == i2 && j < j2)
  }

  /** `f` can be evaluated on every cell of the grid. */
  ghost predicate Total(f: (int, int) --> real, gmax: int, bmax: int)
  {
    forall i, j :: InGrid(i, j, gmax, bmax) ==> f.requires(i, j)
  }

  /**
   * `(g, b)` is a cell of the grid whose value is at most every cell's value,
   * and every later cell's value is strictly greater: the last minimal cell.
   */
  ghost predicate IsLastArgMin(f: (int, int) --> real, gmax: int, bmax: int, g: int, b: int)
    requires Total(f, gmax, bmax)
  {
    && InGrid(g, b, gmax, bmax)
    && (forall i, j :: InGrid(i, j, gmax, bmax) ==> f(g, b) <= f(i, j))
    && (forall i, j :: InGrid(i, j, gmax, bmax) && Before(g, b, i, j) ==> f(g, b) < f(i, j))
  }

  /** `(g, b)` is the last minimal cell among the cells visited before `(r, c)`. */
  ghost predicate BestSoFar(f: (int, int) --> real, gmax: int, bmax: int, r: int, c: int, g: int, b: int)
    requires Total(f, gmax, bmax)
  {
    && InGrid(g, b, gmax, bmax) && Before(g, b, r, c)
    && (forall i, j :: InGrid(i, j, gmax, bmax) && Before(i, j, r, c) ==> f(g, b) <= f(i, j))
    && (forall i, j :: InGrid(i, j, gmax, bmax) && Before(i, j, r, c) && Before(g, b, i, j) ==> f(g, b) < f(i, j))
  }

  /** The search: returns the last minimal cell of the grid and its value. */
  method ArgMin(f: (int, int) --> real, gmax: int, bmax: int) returns (g: int, b: int, price: real)
    requires gmax >= 1 && bmax >= 1
    requires Total(f, gmax, bmax)
    ensures IsLastArgMin(f, gmax, bmax, g, b)
    ensures price == f(g, b)
  {
    var found := false;
    g, b, price := 0, 0, 0.0;
    var i := 1;
    while i <= gmax
      invariant 1 <= i <= gmax + 1
      invariant found <==> i > 1
      invariant found ==> BestSoFar(f, gmax, bmax, i, 1, g, b) && price == f(g, b)
    {
      var j := 1;
      while j <= bmax
        invariant 1 <= j <= bmax + 1
        invariant found <==> (i > 1 || j > 1)
        invariant found ==> BestSoFar(f, gmax, bmax, i, j, g, b) && price == f(g, b)
      {
        var price2 := f(i, j);
        if !found || !(price < price2) {
          g, b, price := i, j, price2;
          found := true;
        }
        j := j + 1;
      }
      assert found ==> BestSoFar(f, gmax, bmax, i + 1, 1, g, b) by {
        if found {
          forall i', j' | InGrid(i', j', gmax, bmax) && Before(i', j', i + 1, 1)
            ensures Before(i', j', i, j)
          {
          }
        }
      }
      i := i + 1;
    }
    assert forall i', j' :: InGrid(i', j', gmax, bmax) ==> Before(i', j', gmax + 1, 1);
  }

  /** Two last minimal cells of the same grid are the same cell. */
  lemma {:induction false} LastArgMinUnique(f: (int, int) --> real, gmax: int, bmax: int, g: int, b: int, g2: int, b2: int)
    requires Total(f, gmax, bmax)
    requires IsLastArgMin(f, gmax, bmax, g, b) && IsLastArgMin(f, gmax, bmax, g2, b2)
    ensures g == g2 && b == b2
  {
  }

  /** When every cell has the same value, the last cell of the grid wins. */
  lemma {:induction false} ConstantPicksLastCell(f: (int, int) --> real, gmax: int, bmax: int, g: int, b: int)
    requires gmax >= 1 && bmax >= 1
    requires Total(f, gmax, bmax)
    requires forall i, j :: InGrid(i, j, gmax, bmax) ==> f(i, j) == f(1, 1)
    requires IsLastArgMin(f, gmax, bmax, g, b)
    ensures g == gmax && b == bmax
  {
    assert InGrid(gmax, bmax, gmax, bmax);
    assert f(g, b) == f(gmax, bmax);
  }
}
