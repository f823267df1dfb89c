/** Who wins: the actors whose hand value is the highest one not over 21. Actors are
    given by their hand values, in the order they are listed; a winner is named by its
    position in that list. */
module Winners {

  /** A hand value over this busts. */
  const Limit: nat := 21

  /** The highest value not over 21, or 0 when every value busts (the value of the
      source's highestHandValue once its loop is done). */
  function Best(values: seq<nat>): nat
  {
    if values == [] then 0
    else
      var b := Best(values[..|values| - 1]);
      var v := values[|values| - 1];
      if v > b && v <= Limit then v else b
  }

  /** Best is the highest value that does not bust: it does not bust itself, no value
      that does not bust is higher, and it is one of the values unless it is 0. */
  lemma {:induction false} BestIsHighest(values: seq<nat>)
    ensures Best(values) <= Limit
    ensures forall i :: 0 <= i < |values| && values[i] <= Limit ==> values[i] <= Best(values)
    ensures Best(values) == 0 || exists i :: 0 <= i < |values| && values[i] == Best(values)
  {
    if values != [] {
      var prefix := values[..|values| - 1];
      BestIsHighest(prefix);
      forall i | 0 <= i < |prefix|
        ensures values[i] == prefix[i]
      {
      }
    }
  }

  /** The positions below n whose value is b, in increasing order. */
  function IndicesOf(values: seq<nat>, b: nat, n: nat): seq<nat>
    requires n <= |values|
  {
    if n == 0 then []
    else IndicesOf(values, b, n - 1) + (if values[n - 1] == b then [n - 1] else [])
  }

  /** The positions of the winners: those whose value equals Best(values). */
  function WinnerIndices(values: seq<nat>): seq<nat>
  {
    IndicesOf(values, Best(values), |values|)
  }

  /** Position i wins: its value does not bust and no other value that does not bust
      is higher. */
  predicate IsWinner(values: seq<nat>, i: nat)
  {
    i < |values| && values[i] <= Limit
    && forall j :: 0 <= j < |values| && values[j] <= Limit ==> values[j] <= values[i]
  }

  /** IndicesOf lists exactly the positions below n holding b, in increasing order. */
  lemma {:induction false} IndicesOfExactly(values: seq<nat>, b: nat, n: nat)
    requires n <= |values|
    ensures forall i: nat :: i in IndicesOf(values, b, n) <==> i < n && values[i] == b
    ensures forall k, l :: 0 <= k < l < |IndicesOf(values, b, n)| ==> IndicesOf(values, b, n)[k] < IndicesOf(values, b, n)[l]
    ensures forall k :: 0 <= k < |IndicesOf(values, b, n)| ==> IndicesOf(values, b, n)[k] < n
  {
    if n > 0 {
      IndicesOfExactly(values, b, n - 1);
    }
  }

  /** The winners are exactly the positions that win, listed in increasing order,
      each once; when every value busts there are none. */
  lemma WinnerIndicesAreWinners(values: seq<nat>)
    ensures forall i: nat :: i in WinnerIndices(values) <==> IsWinner(values, i)
    ensures forall k, l :: 0 <= k < l < |WinnerIndices(values)| ==> WinnerIndices(values)[k] < WinnerIndices(values)[l]
    ensures (forall i :: 0 <= i < |values| ==> values[i] > Limit) ==> WinnerIndices(values) == []
  {
    IndicesOfExactly(values, Best(values), |values|);
    BestIsHighest(values);
    forall i: nat
      ensures i in WinnerIndices(values) <==> IsWinner(values, i)
    {
      if IsWinner(values, i) {
        assert values[i] == Best(values);
      }
    }
    if forall i :: 0 <= i < |values| ==> values[i] > Limit {
      NoneHeld(values, Best(values), |values|);
    }
  }

  /** When no position below n holds b, none is listed. */
  lemma {:induction false} NoneHeld(values: seq<nat>, b: nat, n: nat)
    requires n <= |values|
    requires forall j :: 0 <= j < n ==> values[j] != b
    ensures IndicesOf(values, b, n) == []
  {
    if n > 0 {
      NoneHeld(values, b, n - 1);
    }
  }

  /** Worked results: 18, 21 and 22 is won by the 21; 19 and 19 tie; 22 and 23 both
      bust and nobody wins; 20 beats a bust 22. */
  lemma WinnerExamples()
    ensures WinnerIndices([18, 21, 22]) == [1]
    ensures WinnerIndices([19, 19]) == [0, 1]
    ensures WinnerIndices([22, 23]) == []
    ensures WinnerIndices([20, 22]) == [0]
  {
    assert WinnerIndices([18, 21, 22]) == [1] by {
      assert [18, 21, 22][..2] == [18, 21];
      assert [18, 21][..1] == [18];
      assert [18][..0] == [];
      assert Best([18, 21, 22]) == 21;
      assert IndicesOf([18, 21, 22], 21, 1) == [];
      assert IndicesOf([18, 21, 22], 21, 2) == [1];
    }
    assert WinnerIndices([19, 19]) == [0, 1] by {
      assert [19, 19][..1] == [19];
      assert [19][..0] == [];
      assert Best([19, 19]) == 19;
      assert IndicesOf([19, 19], 19, 1) == [0];
    }
    assert WinnerIndices([22, 23]) == [] by {
      assert [22, 23][..1] == [22];
      assert [22][..0] == [];
      assert Best([22, 23]) == 0;
      assert IndicesOf([22, 23], 0, 1) == [];
    }
    assert WinnerIndices([20, 22]) == [0] by {
      assert [20, 22][..1] == [20];
      assert [20][..0] == [];
      assert Best([20, 22]) == 20;
      assert IndicesOf([20, 22], 20, 1) == [0];
    }
  }

  /** GameManager.DetermineWinners over the actors' hand values: a value above the
      highest so far that does not bust restarts the list with itself, a value equal to
      the highest so far joins it. */
  method DetermineWinners(values: seq<nat>) returns (winners: seq<nat>)
    ensures winners == WinnerIndices(values)
    ensures forall i: nat :: i in winners <==> IsWinner(values, i)
  {
    winners := [];
    if |values| <= 0 {
      WinnerIndicesAreWinners(values);
      return;
    }
    var highestHandValue: nat := 0;
    for i := 0 to |values|
      invariant highestHandValue == Best(values[..i])
      invariant winners == IndicesOf(values, highestHandValue, i)
    {
      assert values[..i + 1][..i] == values[..i];
      var v := values[i];
      if v > highestHandValue && v <= Limit {
        BestIsHighest(values[..i]);
        forall j | 0 <= j < i
          ensures values[j] != v
        {
          assert values[j] == values[..i][j];
        }
        NoneHeld(values, v, i);
        winners := [i];
        highestHandValue := v;
      } else if v == highestHandValue {
        winners := winners + [i];
      }
    }
    assert values[..|values|] == values;
    WinnerIndicesAreWinners(values);
  }
}
