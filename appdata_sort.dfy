/** code/appdata/fix_go_sort.go: the `appdata` copy of the same sort of a Bot's per-Action data as a list sorted by
    final score. */
module AppDataSort {
  import opened Sorting
  import opened ActionData

  /** `SortMapStringActionDataByFinalScore`: every entry once, ascending by
      `PairBotActionDataList.Less` when `sortForward`, by its reverse (highest
      score first) otherwise. */
  method SortMapStringActionDataByFinalScore(input: map<string, BotActionData>, sortForward: bool)
    returns (output: seq<PairBotActionData>)
    ensures EntriesOf(output, input, ActionPairKey, ActionPairValue)
    ensures sortForward ==> SortedBy(output, ActionPairLe)
    ensures !sortForward ==> SortedBy(output, ActionPairGe)
  {
    var pairList := CollectActionPairs(input);

    ActionPairLeTotalPreorder();
    if sortForward {
      output := Sort(pairList, ActionPairLe);
    } else {
      output := Sort(pairList, ActionPairGe);
    }
    EntriesOfPermutation(pairList, output, input, ActionPairKey, ActionPairValue);
  }

  /** The first element of a non-empty reverse-sorted list has the highest
      final score, the Action a Bot would pick. */
  lemma ReverseSortedHeadIsBest(output: seq<PairBotActionData>)
    requires SortedBy(output, ActionPairGe) && |output| > 0
    ensures forall i :: 0 <= i < |output| ==> output[i].value.finalScore <= output[0].value.finalScore
  {
    forall i | 0 < i < |output|
      ensures output[i].value.finalScore <= output[0].value.finalScore
    {
      assert ActionPairGe(output[0], output[i]);
    }
  }
}
