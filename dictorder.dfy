/**
 * The order of the registry's keys, seen from the front of the
 * configuration: a Python dict keeps each key where it was first inserted,
 * so an id that is configured again keeps the place of its first config.
 */
module DictOrder {
  import opened Wrappers
  import opened Generator

  /** The index of the first config with id `id`: where the dict first placed that key. */
  function FirstIndexOf(configs: seq<TagConfig>, id: string): (r: Option<nat>)
    ensures r.Some? ==> r.value < |configs| && configs[r.value].id == id
    ensures r.Some? ==> forall j :: 0 <= j < r.value ==> configs[j].id != id
    ensures r.None? <==> forall j :: 0 <= j < |configs| ==> configs[j].id != id
  {
    if configs == [] then None
    else match FirstIndexOf(configs[..|configs| - 1], id)
      case Some(i) => Some(i)
      case None => if configs[|configs| - 1].id == id then Some(|configs| - 1) else None
  }

  /**
   * A repeated id keeps the place of its first occurrence: the keys are
   * ordered by the index of the first config that carries them.
   */
  lemma {:induction false} KeyOrderFirstOccurrence(configs: seq<TagConfig>)
    ensures var r := KeyOrder(configs);
            && (forall i :: 0 <= i < |r| ==> FirstIndexOf(configs, r[i]).Some?)
            && (forall i, j :: 0 <= i < j < |r| ==>
                  FirstIndexOf(configs, r[i]).value < FirstIndexOf(configs, r[j]).value)
  {
    if configs != [] {
      var n := |configs| - 1;
      var init, id := configs[..n], configs[n].id;
      KeyOrderFirstOccurrence(init);
      KeyOrderKeys(init);
      var prev := KeyOrder(init);
      assert KeyOrder(configs) == if id in prev then prev else prev + [id];
      forall i | 0 <= i < |prev|
        ensures FirstIndexOf(configs, prev[i]) == FirstIndexOf(init, prev[i])
        ensures FirstIndexOf(configs, prev[i]).Some? && FirstIndexOf(configs, prev[i]).value < n
      {
        assert prev[i] in prev;
        assert init[LastIndexOf(init, prev[i]).value].id == prev[i];
      }
      if id !in prev {
        assert LastIndexOf(init, id).None?;
        assert FirstIndexOf(init, id).None?;
        assert FirstIndexOf(configs, id) == Some(n);
        var r := prev + [id];
        assert forall i :: 0 <= i < |prev| ==> r[i] == prev[i];
      }
    }
  }
}
