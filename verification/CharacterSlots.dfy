/** The slot caches of a character and of an opened bank: a vector of entries that stands for a map. */
module CharacterSlots {
  import opened Items
  import opened Wrappers

  datatype Entry = Entry(slot: nat, item: Item)

  function Contents(entries: seq<Entry>): map<nat, Item>
    decreases |entries|
  {
    if entries == [] then map[]
    else
      var last := entries[|entries| - 1];
      Contents(entries[..|entries| - 1])[last.slot := last.item]
  }

  predicate OncePerSlot(entries: seq<Entry>) {
    forall i, j | 0 <= i < j < |entries| :: entries[i].slot != entries[j].slot
  }

  lemma {:induction false} ContentsAt(entries: seq<Entry>)
    requires OncePerSlot(entries)
    ensures forall i | 0 <= i < |entries| ::
              entries[i].slot in Contents(entries) && Contents(entries)[entries[i].slot] == entries[i].item
    ensures forall slot | slot in Contents(entries) :: exists i :: 0 <= i < |entries| && entries[i].slot == slot
    decreases |entries|
  {
    if entries != [] {
      var front := entries[..|entries| - 1];
      ContentsAt(front);
      forall slot | slot in Contents(entries) ensures exists i :: 0 <= i < |entries| && entries[i].slot == slot {
        if slot in Contents(front) {
          var i :| 0 <= i < |front| && front[i].slot == slot;
          assert entries[i].slot == slot;
        } else {
          assert entries[|entries| - 1].slot == slot;
        }
      }
    }
  }

  /** Two entry lists that say the same of every slot stand for the same map. */
  lemma SameContents(entries: seq<Entry>, m: map<nat, Item>)
    requires OncePerSlot(entries)
    requires forall i | 0 <= i < |entries| :: entries[i].slot in m && m[entries[i].slot] == entries[i].item
    requires forall slot | slot in m :: exists i :: 0 <= i < |entries| && entries[i].slot == slot
    ensures Contents(entries) == m
  {
    ContentsAt(entries);
  }

  class SlotCache {
    var entries: seq<Entry>

    predicate Valid()
      reads this
    {
      OncePerSlot(entries)
    }

    function Items(): map<nat, Item>
      reads this
    {
      Contents(entries)
    }

    constructor ()
      ensures Valid() && Items() == map[]
    {
      entries := [];
    }

    method Get(slot: nat) returns (item: Option<Item>)
      requires Valid()
      ensures item == if slot in Items() then Some(Items()[slot]) else None
    {
      ContentsAt(entries);
      for i := 0 to |entries|
        invariant forall k | 0 <= k < i :: entries[k].slot != slot
      {
        if entries[i].slot == slot {
          return Some(entries[i].item);
        }
      }
      item := None;
    }

    /** Overwrites the slot's entry where it stands, or appends one. */
    method Set(slot: nat, item: Item)
      requires Valid()
      modifies this
      ensures Valid() && Items() == old(Items())[slot := item]
    {
      ContentsAt(entries);
      for i := 0 to |entries|
        invariant entries == old(entries) && forall k | 0 <= k < i :: entries[k].slot != slot
      {
        if entries[i].slot == slot {
          entries := entries[i := Entry(slot, item)];
          ghost var now := old(Items())[slot := item];
          forall s | s in now ensures exists k :: 0 <= k < |entries| && entries[k].slot == s {
            var k :| 0 <= k < |old(entries)| && old(entries)[k].slot == s;
            assert entries[k].slot == s;
          }
          SameContents(entries, now);
          return;
        }
      }
      entries := entries + [Entry(slot, item)];
      assert entries[..|entries| - 1] == old(entries);
    }

    /** Erases the slot's entry; the others keep their order. */
    method Clear(slot: nat)
      requires Valid()
      modifies this
      ensures Valid() && Items() == old(Items()) - {slot}
    {
      ContentsAt(entries);
      var left := [];
      for i := 0 to |entries|
        invariant entries == old(entries) && OncePerSlot(left) && |left| <= i
        invariant forall e :: e in left <==> e in entries[..i] && e.slot != slot
      {
        assert entries[..i + 1] == entries[..i] + [entries[i]];
        if entries[i].slot != slot {
          assert forall k | 0 <= k < |left| :: left[k] in left && left[k] in entries[..i];
          left := left + [entries[i]];
        }
      }
      assert entries[..|entries|] == entries;
      ghost var now := old(Items()) - {slot};
      forall s | s in now ensures exists k :: 0 <= k < |left| && left[k].slot == s {
        var k :| 0 <= k < |old(entries)| && old(entries)[k].slot == s;
        assert old(entries)[k] in left;
      }
      forall k | 0 <= k < |left| ensures left[k].slot in now && now[left[k].slot] == left[k].item {
        assert left[k] in left;
      }
      SameContents(left, now);
      entries := left;
    }
  }
}
