/**
 * A JavaScript `Map` (or plain object) filled by setting keys one after another: the keys
 * are those that were set, and each holds the value of the last `set` for it.
 */
module JsMaps {

  /** The map left by `m.set(k, v)` for each pair in order, starting from an empty map. */
  function SetAll<V>(pairs: seq<(string, V)>): map<string, V>
  {
    if |pairs| == 0 then map[]
    else SetAll(pairs[..|pairs| - 1])[pairs[|pairs| - 1].0 := pairs[|pairs| - 1].1]
  }

  /** One more `set` after the others. */
  lemma SetAllSnoc<V>(pairs: seq<(string, V)>, p: (string, V))
    ensures SetAll(pairs + [p]) == SetAll(pairs)[p.0 := p.1]
  {
    assert (pairs + [p])[..|pairs|] == pairs;
  }

  /** A key is present exactly when some pair set it. */
  lemma {:induction false} SetAllKeys<V>(pairs: seq<(string, V)>, k: string)
    ensures k in SetAll(pairs) <==> exists i | 0 <= i < |pairs| :: pairs[i].0 == k
  {
    if |pairs| > 0 {
      var init := pairs[..|pairs| - 1];
      SetAllKeys(init, k);
      if k in SetAll(init) {
        var i :| 0 <= i < |init| && init[i].0 == k;
        assert pairs[i].0 == k;
      }
      if exists i | 0 <= i < |pairs| :: pairs[i].0 == k {
        var i :| 0 <= i < |pairs| && pairs[i].0 == k;
        if i < |init| {
          assert init[i].0 == k;
        }
      }
    }
  }

  /** A key holds the value of the last pair that set it: a later duplicate overwrites an earlier one. */
  lemma {:induction false} SetAllLastWins<V>(pairs: seq<(string, V)>, j: nat)
    requires j < |pairs|
    requires forall l | j < l < |pairs| :: pairs[l].0 != pairs[j].0
    ensures pairs[j].0 in SetAll(pairs) && SetAll(pairs)[pairs[j].0] == pairs[j].1
  {
    if j < |pairs| - 1 {
      var init := pairs[..|pairs| - 1];
      SetAllLastWins(init, j);
    }
  }
}
