/** The result line shown when the game is over, built from the winners' names. */
module WinText {

  /** The names in order, each followed by " and " unless it equals `last`. A name that
      equals the last name anywhere in the list gets no separator, because the source
      compares names by value rather than by position. */
  function Listed(names: seq<string>, last: string): string
  {
    if names == [] then ""
    else
      var n := names[|names| - 1];
      Listed(names[..|names| - 1], last) + n + (if n != last then " and " else "")
  }

  /** The text UIManager.CreateWinString returns. */
  function WinString(names: seq<string>): string
  {
    if |names| <= 0 then "Nobody Won"
    else if |names| == 1 then names[0] + " Won"
    else Listed(names, names[|names| - 1]) + " Tied"
  }

  /** The names with " and " between each two consecutive ones. */
  function Join(names: seq<string>): string
  {
    if names == [] then ""
    else if |names| == 1 then names[0]
    else Join(names[..|names| - 1]) + " and " + names[|names| - 1]
  }

  /** When no name equals `last`, every name is followed by " and ". */
  lemma {:induction false} ListedWithoutLast(names: seq<string>, last: string)
    requires names != []
    requires forall i :: 0 <= i < |names| ==> names[i] != last
    ensures Listed(names, last) == Join(names) + " and "
  {
    if |names| > 1 {
      ListedWithoutLast(names[..|names| - 1], last);
    } else {
      assert names[..0] == [];
    }
  }

  /** With the last name occurring only at the end, a tie reads as the names joined by
      " and ", then " Tied". */
  lemma TieJoinsNames(names: seq<string>)
    requires |names| >= 2
    requires forall i :: 0 <= i < |names| - 1 ==> names[i] != names[|names| - 1]
    ensures WinString(names) == Join(names) + " Tied"
  {
    var prefix := names[..|names| - 1];
    ListedWithoutLast(prefix, names[|names| - 1]);
  }

  /** The three shapes of the text: nobody, one winner, and a tie of distinct names;
      and a tie of two equal names, where the separator goes missing. */
  lemma WinStringExamples()
    ensures WinString([]) == "Nobody Won"
    ensures WinString(["Player"]) == "Player Won"
    ensures WinString(["Player", "AI"]) == "Player and AI Tied"
    ensures WinString(["AI", "AI"]) == "AIAI Tied"
  {
    assert ["Player", "AI"][..1] == ["Player"];
    assert ["Player"][..0] == [];
    assert ["AI", "AI"][..1] == ["AI"];
    assert ["AI"][..0] == [];
  }

  /** UIManager.CreateWinString: no winner, one winner, or every winner's name with
      " and " after each name that is not the last one, then " Tied". */
  method CreateWinString(winners: seq<string>) returns (text: string)
    ensures text == WinString(winners)
    ensures |winners| == 0 ==> text == "Nobody Won"
    ensures |winners| == 1 ==> text == winners[0] + " Won"
    ensures |winners| >= 2 ==>
      (forall i :: 0 <= i < |winners| - 1 ==> winners[i] != winners[|winners| - 1]) ==>
      text == Join(winners) + " Tied"
  {
    if |winners| <= 0 {
      return "Nobody Won";
    } else if |winners| == 1 {
      return winners[0] + " Won";
    }
    var last := winners[|winners| - 1];
    var stringToReturn := "";
    for i := 0 to |winners|
      invariant stringToReturn == Listed(winners[..i], last)
    {
      assert winners[..i + 1][..i] == winners[..i];
      var winner := winners[i];
      stringToReturn := stringToReturn + winner;
      if winner != last {
        stringToReturn := stringToReturn + " and ";
      }
    }
    assert winners[..|winners|] == winners;
    text := stringToReturn + " Tied";
    if forall i :: 0 <= i < |winners| - 1 ==> winners[i] != winners[|winners| - 1] {
      TieJoinsNames(winners);
    }
  }
}
