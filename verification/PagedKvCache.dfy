/**
 A key/value cache in fixed-size blocks that sequences own: the block table of one layer and the cells
 it addresses.
*/
module PagedKvCache {
  import opened Basics

  // --------------------------------------------------------------------------------------- the block table

  type Table = map<int, seq<nat>>

  ghost predicate Distinct(s: seq<nat>) {
    forall i, j :: 0 <= i < j < |s| ==> s[i] != s[j]
  }

  ghost predicate Disjoint(s: seq<nat>, t: seq<nat>) {
    forall i, j :: 0 <= i < |s| && 0 <= j < |t| ==> s[i] != t[j]
  }

  /** No block has two places, in the free list or in the list of a sequence. */
  ghost predicate Exclusive(free: seq<nat>, table: Table, blocks: nat) {
    && Distinct(free) && (forall i :: 0 <= i < |free| ==> free[i] < blocks)
    && (forall id :: id in table ==>
          && Distinct(table[id]) && Disjoint(free, table[id])
          && forall i :: 0 <= i < |table[id]| ==> table[id][i] < blocks)
    && forall a, b :: a in table && b in table && a != b ==> Disjoint(table[a], table[b])
  }

  ghost predicate HasPlace(free: seq<nat>, table: Table, b: nat) {
    b in free || exists id :: id in table && b in table[id]
  }

  /** Every block has a place. */
  ghost predicate NoneLost(free: seq<nat>, table: Table, blocks: nat) {
    forall b: nat :: b < blocks ==> HasPlace(free, table, b)
  }

  lemma AllocationExclusive(free: seq<nat>, table: Table, blocks: nat, id: int, n: nat)
    requires Exclusive(free, table, blocks) && n <= |free|
    ensures Exclusive(free[n..], table[id := free[..n]], blocks)
  {
  }

  lemma AllocationKeeps(free: seq<nat>, table: Table, blocks: nat, id: int, n: nat)
    requires Exclusive(free, table, blocks) && NoneLost(free, table, blocks) && n <= |free|
    requires id in table ==> table[id] == []
    ensures NoneLost(free[n..], table[id := free[..n]], blocks)
  {
    var table1 := table[id := free[..n]];
    forall b: nat | b < blocks
      ensures HasPlace(free[n..], table1, b)
    {
      assert HasPlace(free, table, b);
      if b in free {
        var i :| 0 <= i < |free| && free[i] == b;
        if i < n {
          assert free[..n][i] == b && id in table1 && b in table1[id];
        } else {
          assert free[n..][i - n] == b;
        }
      } else {
        var a :| a in table && b in table[a];
        assert a in table1 && b in table1[a];
      }
    }
  }

  /** Allocating again for a sequence that still owns blocks loses them. */
  lemma ReallocationLoses(free: seq<nat>, table: Table, blocks: nat, id: int, n: nat)
    requires Exclusive(free, table, blocks) && n <= |free| && id in table && table[id] != []
    ensures !NoneLost(free[n..], table[id := free[..n]], blocks)
  {
    assert !HasPlace(free[n..], table[id := free[..n]], table[id][0]);
  }

  /** Allocation keeps every block exactly if the sequence owned none before. */
  lemma Allocation(free: seq<nat>, table: Table, blocks: nat, id: int, n: nat)
    requires Exclusive(free, table, blocks) && n <= |free|
    ensures Exclusive(free[n..], table[id := free[..n]], blocks)
    ensures NoneLost(free, table, blocks) ==>
              (NoneLost(free[n..], table[id := free[..n]], blocks) <==> id !in table || table[id] == [])
  {
    AllocationExclusive(free, table, blocks, id, n);
    if NoneLost(free, table, blocks) {
      if id in table && table[id] != [] {
        ReallocationLoses(free, table, blocks, id, n);
      } else {
        AllocationKeeps(free, table, blocks, id, n);
      }
    }
  }

  lemma FreeingExclusive(free: seq<nat>, table: Table, blocks: nat, id: int)
    requires Exclusive(free, table, blocks) && id in table
    ensures Exclusive(free + table[id], table - {id}, blocks)
  {
  }

  lemma FreeingKeeps(free: seq<nat>, table: Table, blocks: nat, id: int)
    requires NoneLost(free, table, blocks) && id in table
    ensures NoneLost(free + table[id], table - {id}, blocks)
  {
    forall b: nat | b < blocks
      ensures HasPlace(free + table[id], table - {id}, b)
    {
      assert HasPlace(free, table, b);
      if b !in free && b !in table[id] {
        var a :| a in table && b in table[a];
        assert a in table - {id} && b in (table - {id})[a];
      }
    }
  }

  class BlockTable {
    const numBlocks: nat
    const blockSize: nat
    var freeBlocks: seq<nat>
    var seqToBlocks: Table

    ghost predicate Sound()
      reads this
    {
      blockSize > 0 && Exclusive(freeBlocks, seqToBlocks, numBlocks)
    }

    ghost predicate Complete()
      reads this
    {
      NoneLost(freeBlocks, seqToBlocks, numBlocks)
    }

    constructor (numBlocks: nat, blockSize: nat)
      requires blockSize > 0
      ensures Sound() && Complete() && this.numBlocks == numBlocks && this.blockSize == blockSize
              && seqToBlocks == map[]
    {
      this.numBlocks, this.blockSize := numBlocks, blockSize;
      freeBlocks, seqToBlocks := seq(numBlocks, i => i), map[];
      new;
      forall b: nat | b < numBlocks
        ensures HasPlace(freeBlocks, seqToBlocks, b)
      {
        assert freeBlocks[b] == b;
      }
    }

    /** Takes the blocks for a sequence from the head of the free list, or none if there are too few. */
    method AllocateBlocks(id: int, tokens: nat) returns (r: Option<seq<nat>>)
      requires Sound()
      modifies this
      ensures Sound()
      ensures r.Some? <==> Blocks(tokens, blockSize) <= |old(freeBlocks)|
      ensures r.Some? ==> |r.value| == Blocks(tokens, blockSize) && old(freeBlocks) == r.value + freeBlocks
      ensures seqToBlocks == if r.Some? then old(seqToBlocks)[id := r.value] else old(seqToBlocks)
      ensures r.None? ==> freeBlocks == old(freeBlocks)
      ensures old(Complete()) && r.Some? ==> (Complete() <==> id !in old(seqToBlocks) || old(seqToBlocks)[id] == [])
    {
      var needed := Blocks(tokens, blockSize);
      if |freeBlocks| < needed {
        return None;
      }
      var taken := [];
      for n := 0 to needed
        invariant taken == old(freeBlocks)[..n] && freeBlocks == old(freeBlocks)[n..] && seqToBlocks == old(seqToBlocks)
      {
        taken, freeBlocks := taken + [freeBlocks[0]], freeBlocks[1..];
      }
      Allocation(old(freeBlocks), seqToBlocks, numBlocks, id, needed);
      seqToBlocks := seqToBlocks[id := taken];
      return Some(taken);
    }

    /** Gives the blocks of a sequence back; unknown sequences are ignored. */
    method FreeSequenceBlocks(id: int)
      requires Sound()
      modifies this
      ensures Sound() && (old(Complete()) ==> Complete())
      ensures seqToBlocks == old(seqToBlocks) - {id}
      ensures freeBlocks == old(freeBlocks) + (if id in old(seqToBlocks) then old(seqToBlocks)[id] else [])
    {
      if id in seqToBlocks {
        FreeingExclusive(freeBlocks, seqToBlocks, numBlocks, id);
        if Complete() {
          FreeingKeeps(freeBlocks, seqToBlocks, numBlocks, id);
        }
        freeBlocks := freeBlocks + seqToBlocks[id];
        seqToBlocks := seqToBlocks - {id};
      }
    }

    function GetBlocks(id: int): seq<nat>
      reads this
    {
      if id in seqToBlocks then seqToBlocks[id] else []
    }
  }

  // --------------------------------------------------------------------------------------------- the cells

  datatype Kv<V> = Kv(key: V, value: V)

  /** Different tokens, of one sequence or of two, have different cells. */
  lemma CellsApart(free: seq<nat>, table: Table, blocks: nat, size: nat, a: int, s: nat, b: int, t: nat)
    requires size > 0 && Exclusive(free, table, blocks) && a in table && b in table && (a, s) != (b, t)
    requires s < Times(|table[a]|, size) && t < Times(|table[b]|, size)
    ensures Quotient(s, size) < |table[a]| && Quotient(t, size) < |table[b]|
    ensures table[a][Quotient(s, size)] != table[b][Quotient(t, size)] || Remainder(s, size) != Remainder(t, size)
  {
    QuotientBelow(s, |table[a]|, size);
    QuotientBelow(t, |table[b]|, size);
    Digits(s, size);
    Digits(t, size);
  }

  lemma InCapacity(t: nat, blocks: nat, size: nat)
    requires size > 0 && Quotient(t, size) < blocks
    ensures t < Times(blocks, size)
  {
    TimesGrows(Quotient(t, size) + 1, blocks, size);
  }

  // ------------------------------------------------------------------------------- runs, as a map of token lists

  datatype Op<V> =
    | Allocate(id: int, tokens: nat)
    | Write(id: int, start: nat, keys: seq<V>, values: seq<V>)
    | Free(id: int)

  /** A sequence as its owner sees it: a list of tokens, unknown where nothing has been written yet. */
  datatype Tokens<V> = Tokens(blocks: nat, tokens: seq<Option<Kv<V>>>)

  /** All sequences, and how many blocks are free. */
  datatype Model<V> = Model(sequences: map<int, Tokens<V>>, free: nat)

  function Overlay<V>(tokens: seq<Option<Kv<V>>>, start: nat, keys: seq<V>, values: seq<V>): (r: seq<Option<Kv<V>>>)
    requires |keys| == |values|
    ensures |r| == |tokens|
    ensures forall t :: 0 <= t < |r| ==> r[t] == if start <= t < start + |keys| then
            Some(Kv(keys[t - start], values[t - start])) else tokens[t]
  {
    seq(|tokens|, t requires 0 <= t < |tokens| =>
      if start <= t < start + |keys| then Some(Kv(keys[t - start], values[t - start])) else tokens[t])
  }

  function After<V>(m: Model<V>, op: Op<V>, size: nat): Model<V>
    requires size > 0 && (op.Write? ==> |op.keys| == |op.values|)
  {
    match op
    case Allocate(id, tokens) =>
      var n := Blocks(tokens, size);
      if n <= m.free then Model(m.sequences[id := Tokens(n, seq(Times(n, size), _ => None))], m.free - n) else m
    case Write(id, start, keys, values) =>
      if id in m.sequences then
        m.(sequences := m.sequences[id :=
          m.sequences[id].(tokens := Overlay(m.sequences[id].tokens, start, keys, values))])
      else m
    case Free(id) =>
      if id in m.sequences then Model(m.sequences - {id}, m.free + m.sequences[id].blocks) else m
  }

  function AfterAll<V>(m: Model<V>, ops: seq<Op<V>>, size: nat): Model<V>
    requires size > 0 && forall i :: 0 <= i < |ops| && ops[i].Write? ==> |ops[i].keys| == |ops[i].values|
  {
    if ops == [] then m else After(AfterAll(m, ops[..|ops| - 1], size), ops[|ops| - 1], size)
  }

  /** Blocks are only allocated for sequences that have none at that time. */
  predicate FreshAllocations<V>(m: Model<V>, ops: seq<Op<V>>, size: nat)
    requires size > 0 && forall i :: 0 <= i < |ops| && ops[i].Write? ==> |ops[i].keys| == |ops[i].values|
  {
    forall i :: 0 <= i < |ops| && ops[i].Allocate? ==> ops[i].id !in AfterAll(m, ops[..i], size).sequences
  }

  class PagedKvCache<V(!new)> {
    const table: BlockTable
    const cells: array2<Kv<V>>
    const zero: V

    ghost predicate Valid()
      reads this, table
    {
      table.Sound() && cells.Length0 == table.numBlocks && cells.Length1 == table.blockSize
    }

    /** How many tokens the blocks of a sequence hold. */
    ghost function Capacity(id: int): nat
      reads this, table
    {
      Times(|table.GetBlocks(id)|, table.blockSize)
    }

    /** The cell of a token. */
    ghost function CellOf(id: int, t: nat): Kv<V>
      requires Valid() && id in table.seqToBlocks && t < Capacity(id)
      reads this, table, cells
    {
      QuotientBelow(t, |table.GetBlocks(id)|, table.blockSize);
      cells[table.seqToBlocks[id][Quotient(t, table.blockSize)], Remainder(t, table.blockSize)]
    }

    constructor (table: BlockTable, zero: V)
      requires table.Sound()
      ensures Valid() && this.table == table && this.zero == zero && fresh(cells)
    {
      this.table, this.zero := table, zero;
      cells := new Kv<V>[table.numBlocks, table.blockSize]((i, j) => Kv(zero, zero));
    }

    /**
     Writes keys and values at consecutive positions of a sequence. Tokens behind the last block are
     dropped; no other cell of this or any other sequence changes.
    */
    method WriteKv(keys: seq<V>, values: seq<V>, blocks: seq<nat>, start: nat, ghost id: int)
      requires Valid() && |keys| == |values| && blocks == table.GetBlocks(id)
      modifies cells
      ensures forall a, t: nat :: a in table.seqToBlocks && t < Capacity(a) ==>
                CellOf(a, t) == if a == id && start <= t < start + |keys| then Kv(keys[t - start], values[t - start])
                  else old(CellOf(a, t))
    {
      for i := 0 to |keys|
        invariant forall a, t: nat :: a in table.seqToBlocks && t < Capacity(a) ==>
                    CellOf(a, t) == if a == id && start <= t < start + i then Kv(keys[t - start], values[t - start])
                      else old(CellOf(a, t))
      {
        var t := start + i;
        var index, offset := Quotient(t, table.blockSize), Remainder(t, table.blockSize);
        if index < |blocks| {
          InCapacity(t, |blocks|, table.blockSize);
          WriteCell(blocks[index], offset, keys[i], values[i], id, t);
        } else {
          assert t >= Capacity(id) by {
            if t < Capacity(id) {
              QuotientBelow(t, |blocks|, table.blockSize);
            }
          }
        }
      }
    }

    /** One cell, first the key, then the value. */
    method WriteCell(block: nat, offset: nat, key: V, value: V, ghost id: int, ghost t: nat)
      requires Valid() && id in table.seqToBlocks && t < Capacity(id)
      requires Quotient(t, table.blockSize) < |table.seqToBlocks[id]|
               && block == table.seqToBlocks[id][Quotient(t, table.blockSize)]
      requires offset == Remainder(t, table.blockSize)
      modifies cells
      ensures forall a, s: nat :: a in table.seqToBlocks && s < Capacity(a) ==>
                CellOf(a, s) == if a == id && s == t then Kv(key, value) else old(CellOf(a, s))
    {
      cells[block, offset] := cells[block, offset].(key := key);
      cells[block, offset] := cells[block, offset].(value := value);
      forall a, s: nat | a in table.seqToBlocks && s < Capacity(a)
        ensures CellOf(a, s) == if a == id && s == t then Kv(key, value) else old(CellOf(a, s))
      {
        if a != id || s != t {
          CellsApart(table.freeBlocks, table.seqToBlocks, table.numBlocks, table.blockSize, a, s, id, t);
        }
      }
    }

    /** Reads the first tokens of a sequence; behind its last block there are zeros. */
    method ReadKv(blocks: seq<nat>, tokens: nat, ghost id: int) returns (keys: seq<V>, values: seq<V>)
      requires Valid() && blocks == table.GetBlocks(id)
      ensures |keys| == |values| == tokens
      ensures forall t :: 0 <= t < tokens ==> Kv(keys[t], values[t]) == if t < Capacity(id) then CellOf(id, t)
              else Kv(zero, zero)
    {
      keys, values := [], [];
      for t := 0 to tokens
        invariant |keys| == |values| == t
        invariant forall s :: 0 <= s < t ==> Kv(keys[s], values[s]) == if s < Capacity(id) then CellOf(id, s)
                  else Kv(zero, zero)
      {
        var index, offset := Quotient(t, table.blockSize), Remainder(t, table.blockSize);
        if index < |blocks| {
          InCapacity(t, |blocks|, table.blockSize);
          keys, values := keys + [cells[blocks[index], offset].key], values + [cells[blocks[index], offset].value];
        } else {
          assert t >= Capacity(id) by {
            if t < Capacity(id) {
              QuotientBelow(t, |blocks|, table.blockSize);
            }
          }
          keys, values := keys + [zero], values + [zero];
        }
      }
    }

    /** The sequences hold what the model says, wherever it knows. */
    ghost predicate Agrees(m: Model<V>)
      requires Valid()
      reads this, table, cells
    {
      && table.seqToBlocks.Keys == m.sequences.Keys && |table.freeBlocks| == m.free
      && (forall id :: id in table.seqToBlocks ==>
            |table.seqToBlocks[id]| == m.sequences[id].blocks
              && |m.sequences[id].tokens| == Times(m.sequences[id].blocks, table.blockSize))
      && forall id, t: nat :: id in table.seqToBlocks && t < Capacity(id) && m.sequences[id].tokens[t].Some? ==>
           CellOf(id, t) == m.sequences[id].tokens[t].value
    }

    method PerformAllocate(id: int, tokens: nat, ghost m: Model<V>)
      requires Valid() && Agrees(m)
      modifies table
      ensures Valid() && Agrees(After(m, Allocate(id, tokens), table.blockSize))
      ensures old(table.Complete()) && id !in m.sequences ==> table.Complete()
    {
      var blocks := table.AllocateBlocks(id, tokens);
      ghost var m1 := After(m, Allocate(id, tokens), table.blockSize);
      assert table.seqToBlocks.Keys == m1.sequences.Keys;
      forall a, t: nat | a in table.seqToBlocks && t < Capacity(a) && m1.sequences[a].tokens[t].Some?
        ensures CellOf(a, t) == m1.sequences[a].tokens[t].value
      {
        assert blocks.None? || a != id;
      }
    }

    method PerformWrite(id: int, start: nat, keys: seq<V>, values: seq<V>, ghost m: Model<V>)
      requires Valid() && Agrees(m) && |keys| == |values|
      modifies cells
      ensures Valid() && Agrees(After(m, Write(id, start, keys, values), table.blockSize))
    {
      var blocks := table.GetBlocks(id);
      WriteKv(keys, values, blocks, start, id);
    }

    method PerformFree(id: int, ghost m: Model<V>)
      requires Valid() && Agrees(m)
      modifies table
      ensures Valid() && Agrees(After(m, Free(id), table.blockSize))
      ensures old(table.Complete()) ==> table.Complete()
    {
      table.FreeSequenceBlocks(id);
      assert table.seqToBlocks.Keys == After(m, Free(id), table.blockSize).sequences.Keys;
    }

    method Perform(op: Op<V>, ghost m: Model<V>)
      requires Valid() && Agrees(m) && (op.Write? ==> |op.keys| == |op.values|)
      modifies table, cells
      ensures Valid() && Agrees(After(m, op, table.blockSize))
      ensures old(table.Complete()) && (op.Allocate? ==> op.id !in m.sequences) ==> table.Complete()
    {
      match op
      case Allocate(id, tokens) => PerformAllocate(id, tokens, m);
      case Write(id, start, keys, values) => PerformWrite(id, start, keys, values, m);
      case Free(id) => PerformFree(id, m);
    }

    /**
     Any run of allocations, writes in pieces and frees agrees with a map from sequences to token lists.
     No block is lost as long as blocks are only allocated for sequences that have none.
    */
    method Run(ops: seq<Op<V>>, ghost m: Model<V>)
      requires Valid() && Agrees(m) && forall i :: 0 <= i < |ops| && ops[i].Write? ==> |ops[i].keys| == |ops[i].values|
      modifies table, cells
      ensures Valid() && Agrees(AfterAll(m, ops, table.blockSize))
      ensures old(table.Complete()) && FreshAllocations(m, ops, table.blockSize) ==> table.Complete()
    {
      for i := 0 to |ops|
        invariant Valid() && Agrees(AfterAll(m, ops[..i], table.blockSize))
        invariant old(table.Complete()) && FreshAllocations(m, ops, table.blockSize) ==> table.Complete()
      {
        assert ops[..i + 1][..i] == ops[..i];
        Perform(ops[i], AfterAll(m, ops[..i], table.blockSize));
      }
      assert ops[..|ops|] == ops;
    }

    /** Reading back what has been written. */
    method ReadBack(id: int, tokens: nat, ghost m: Model<V>) returns (keys: seq<V>, values: seq<V>)
      requires Valid() && Agrees(m) && id in m.sequences
      ensures |keys| == |values| == tokens
      ensures forall t :: 0 <= t < tokens && t < |m.sequences[id].tokens| && m.sequences[id].tokens[t].Some? ==>
                Kv(keys[t], values[t]) == m.sequences[id].tokens[t].value
    {
      var blocks := table.GetBlocks(id);
      keys, values := ReadKv(blocks, tokens, id);
    }
  }
}
