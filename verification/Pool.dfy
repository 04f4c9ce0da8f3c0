/** The dense keyed pool: parallel value and key vectors with an index, where removal moves the last value into the
    gap. */
module Pool {
  import opened Wrappers

  class Pool<T> {
    var values: seq<T>
    var keys: seq<nat>
    var index: map<nat, nat>

    predicate Valid()
      reads this
    {
      |values| == |keys|
      && (forall i | 0 <= i < |keys| :: keys[i] in index && index[keys[i]] == i)
      && forall k | k in index :: index[k] < |keys| && keys[index[k]] == k
    }

    /** The finite map the pool stands for. */
    function Contents(): map<nat, T>
      reads this
      requires Valid()
    {
      map k | k in index :: values[index[k]]
    }

    constructor ()
      ensures Valid() && Contents() == map[]
    {
      values, keys, index := [], [], map[];
    }

    method Add(key: nat, value: T) returns (added: bool)
      requires Valid()
      modifies this
      ensures Valid() && added == (key !in old(Contents()))
      ensures Contents() == if added then old(Contents())[key := value] else old(Contents())
    {
      if key in index {
        return false;
      }
      index := index[key := |values|];
      keys, values := keys + [key], values + [value];
      added := true;
    }

    /** The value in the last slot fills the gap, and its index entry follows it. */
    method Remove(key: nat) returns (removed: Option<T>)
      requires Valid()
      modifies this
      ensures Valid() && Contents() == old(Contents()) - {key}
      ensures removed == if key in old(Contents()) then Some(old(Contents())[key]) else None
    {
      if key !in index {
        assert Contents() == old(Contents()) - {key};
        return None;
      }
      var slot, last := index[key], |values| - 1;
      removed := Some(values[slot]);
      if slot != last {
        values, keys := values[slot := values[last]], keys[slot := keys[last]];
        index := index[keys[slot] := slot];
      }
      values, keys, index := values[..last], keys[..last], index - {key};
      assert Contents() == old(Contents()) - {key};
    }

    method Get(key: nat) returns (value: Option<T>)
      requires Valid()
      ensures value == if key in Contents() then Some(Contents()[key]) else None
    {
      value := if key in index then Some(values[index[key]]) else None;
    }

    /** Iterating the values visits each entry of the map exactly once. */
    lemma IterationCovers()
      requires Valid()
      ensures forall k | k in Contents() :: exists i :: 0 <= i < |values| && keys[i] == k && values[i] == Contents()[k]
      ensures forall i, j | 0 <= i < j < |keys| :: keys[i] != keys[j]
      ensures |values| == |Contents()|
    {
      assert forall k | k in index :: keys[index[k]] == k;
      Counted(keys, Contents());
    }
  }

  lemma {:induction false} Counted<T>(keys: seq<nat>, m: map<nat, T>)
    requires forall i, j | 0 <= i < j < |keys| :: keys[i] != keys[j]
    requires m.Keys == set k | k in keys
    ensures |m| == |keys|
    decreases |keys|
  {
    if keys != [] {
      var front, k := keys[..|keys| - 1], keys[|keys| - 1];
      assert (m - {k}).Keys == set i | i in front;
      Counted(front, m - {k});
      assert |m.Keys| == |(m - {k}).Keys + {k}|;
    } else {
      assert m == map[];
    }
  }
}
