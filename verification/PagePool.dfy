// The device pool of pages, written in place.
module DevicePool {
  import opened Common
  import opened Paging
  import opened PagedStore

  class PagePool {
    const blocks: nat
    const size: nat
    const cells: array2<Slot>

    ghost predicate Valid() {
      cells.Length0 == blocks && cells.Length1 == size
    }

    ghost function Pages(): (r: Pool)
      requires Valid()
      reads cells
      ensures |r| == blocks && forall b | 0 <= b < blocks :: |r[b]| == size
    {
      seq(blocks, b requires 0 <= b < blocks reads cells =>
        seq(size, s requires 0 <= s < size reads cells => cells[b, s]))
    }

    constructor (blocks: nat, size: nat)
      ensures Valid() && this.blocks == blocks && this.size == size && fresh(cells)
    {
      this.blocks, this.size := blocks, size;
      cells := new Slot[blocks, size]((b, s) => Blank);
    }

    method Write(b: nat, slot: nat, v: Slot)
      requires Valid() && b < blocks && slot < size
      modifies cells
      ensures Pages() == SetSlot(old(Pages()), b, slot, v)
    {
      cells[b, slot] := v;
      assert Pages()[b] == old(Pages())[b][slot := v];
      assert forall x | 0 <= x < blocks && x != b :: Pages()[x] == old(Pages())[x];
    }

    // Copies one page; the source issues one such copy per layer and tensor.
    method CopyBlock(from: nat, to: nat)
      requires Valid() && from < blocks && to < blocks
      modifies cells
      ensures Pages() == old(Pages())[to := old(Pages())[from]]
    {
      for s := 0 to size
        invariant forall b, t | 0 <= b < blocks && 0 <= t < size ::
                    cells[b, t] == if b == to && t < s then old(cells[from, t]) else old(cells[b, t])
      {
        cells[to, s] := cells[from, s];
      }
      assert Pages()[to] == old(Pages())[from];
      assert forall b | 0 <= b < blocks && b != to :: Pages()[b] == old(Pages())[b];
    }

    // Reads a request's run through its block table.
    method ReadRun(table: seq<nat>, length: nat, ghost values: seq<Slot>) returns (run: seq<Slot>)
      requires Valid() && size > 0 && Stored(Pages(), size, table, values) && length <= |values|
      ensures run == values[..length]
    {
      run := [];
      for i := 0 to length
        invariant run == values[..i]
      {
        DivBounds(i, size);
        MulLess(i / size, |table|, size);
        assert Pages()[table[i / size]][i % size] == values[(i / size) * size + i % size];
        run := run + [cells[table[i / size], i % size]];
      }
    }
  }
}
