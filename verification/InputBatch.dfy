/** The slot-indexed input batch that caches, row by row, the state of the
    scheduled requests. Removing a request leaves a hole; adding one fills the
    smallest hole first; condensing moves the last rows into the holes. */
module InputBatches {
  import opened Common

  type ReqId = string
  type Token = int
  type BlockId = nat

  /** One list of block ids per KV-cache group. */
  type BlockTable = seq<seq<BlockId>>

  /** One row of the batch. `cells` holds the token cells written since the
      row was filled; a cell outside it still holds a former occupant's token. */
  datatype Row = Row(
    blocks: BlockTable,
    numComputed: int,
    numPrompt: nat,
    numTokensNoSpec: nat,
    cells: map<nat, Token>)

  datatype Slot = Hole | Filled(id: ReqId, row: Row)

  class InputBatch {
    var slots: seq<Slot>
    var index: map<ReqId, nat>

    /** The id index and the filled slots are inverse to each other. */
    ghost predicate Valid()
      reads this
    {
      && (forall id :: id in index ==>
            index[id] < |slots| && slots[index[id]].Filled? && slots[index[id]].id == id)
      && (forall i :: 0 <= i < |slots| && slots[i].Filled? ==>
            slots[i].id in index && index[slots[i].id] == i)
    }

    ghost predicate Dense()
      reads this
    {
      forall i :: 0 <= i < |slots| ==> slots[i].Filled?
    }

    /** What the batch says of each request, whatever its slot. */
    ghost function View(): map<ReqId, Row>
      requires Valid()
      reads this
    {
      map id | id in index :: slots[index[id]].row
    }

    constructor ()
      ensures Valid() && Dense() && View() == map[]
    {
      slots, index := [], map[];
    }

    /** Leaves a hole; an absent id changes nothing. */
    method Remove(id: ReqId)
      requires Valid()
      modifies this
      ensures Valid() && View() == old(View()) - {id}
    {
      if id in index {
        slots := slots[index[id] := Hole];
        index := index - {id};
      }
    }

    /** Fills the smallest hole, or appends a row when there is none. */
    method Add(id: ReqId, row: Row)
      requires Valid() && id !in index
      modifies this
      ensures Valid() && View() == old(View())[id := row]
      ensures id in index && index[id] <= |old(slots)|
      ensures forall i :: 0 <= i < index[id] ==> old(slots)[i].Filled?
      ensures index[id] < |old(slots)| ==> old(slots)[index[id]] == Hole
    {
      var i := 0;
      while i < |slots| && slots[i].Filled?
        invariant 0 <= i <= |slots|
        invariant forall k :: 0 <= k < i ==> slots[k].Filled?
      {
        i := i + 1;
      }
      slots := if i < |slots| then slots[i := Filled(id, row)] else slots + [Filled(id, row)];
      index := index[id := i];
    }

    /** Replaces the contents of the row at a filled slot. */
    method SetRow(i: nat, row: Row)
      requires Valid() && i < |slots| && slots[i].Filled?
      modifies this`slots
      ensures Valid() && View() == old(View())[old(slots)[i].id := row]
    {
      slots := slots[i := Filled(slots[i].id, row)];
    }

    /** Moves the last row into the hole at slot i. */
    method MoveLast(i: nat)
      requires Valid() && i < |slots| - 1 && slots[i].Hole? && slots[|slots| - 1].Filled?
      modifies this
      ensures Valid() && View() == old(View())
      ensures slots == old(slots[..|slots| - 1][i := slots[|slots| - 1]])
    {
      var moved := slots[|slots| - 1];
      slots := slots[..|slots| - 1][i := moved];
      index := index[moved.id := i];
    }

    /** Drops a hole at the end. */
    method DropLast()
      requires Valid() && slots != [] && slots[|slots| - 1].Hole?
      modifies this`slots
      ensures Valid() && View() == old(View()) && slots == old(slots[..|slots| - 1])
    {
      slots := slots[..|slots| - 1];
    }

    /** Removes the gaps: each hole, smallest first, takes the last row. */
    method Condense()
      requires Valid()
      modifies this
      ensures Valid() && Dense() && View() == old(View())
      ensures |slots| == |View()|
    {
      var i := 0;
      while i < |slots|
        invariant 0 <= i <= |slots|
        invariant Valid() && View() == old(View())
        invariant forall k :: 0 <= k < i ==> slots[k].Filled?
        decreases |slots| - i
      {
        if slots[i].Filled? {
          i := i + 1;
        } else if slots[|slots| - 1].Hole? {
          DropLast();
        } else {
          MoveLast(i);
        }
      }
      DenseCardinality();
    }

    /** A dense batch has exactly one slot per request. */
    lemma DenseCardinality()
      requires Valid() && Dense()
      ensures |slots| == |View()|
    {
      var ids := seq(|slots|, i requires 0 <= i < |slots| && slots[i].Filled? reads this => slots[i].id);
      assert forall i :: 0 <= i < |ids| ==> index[ids[i]] == i;
      DistinctCardinality(ids);
      forall id ensures id in ids <==> id in index {
        if id in index {
          assert ids[index[id]] == id;
        }
      }
      assert ToSet(ids) == View().Keys;
    }
  }
}
