/**
 * ZDoom's `TArray<T>` seen from outside: a pointer to the elements at offset 0 and a 32-bit
 * element count at offset 8. Iterating yields the elements in order and stops at the count or
 * at the first element that cannot be read, whichever comes first.
 */
module ZDoomArray {
  import opened Outcome
  import opened Remote

  const ArrayData: nat := 0x0
  const ArrayCount: nat := 0x8

  /** The element with index `i`: the path [0x0, elemSize * i] from the array's address. */
  function ElementAt<T>(m: Memory, address: nat, elemSize: nat, decode: Decoder<T>, i: nat): (r: Option<T>)
    ensures r.Some? <==> ReadU64(m, address + ArrayData).Some?
                         && decode(m, ReadU64(m, address + ArrayData).value + elemSize * i).Some?
    ensures r.Some? ==> r == decode(m, ReadU64(m, address + ArrayData).value + elemSize * i)
  {
    TargetOfTwo(m, Bit64, address, ArrayData, elemSize * i);
    match ReadPath(m, Bit64, address, [ArrayData, elemSize * i], decode)
    case Ok(v) => Some(v)
    case _ => None
  }

  /** What iterating yields from index `i` on: elements until `size` or the first unreadable one. */
  function ItemsFrom<T>(m: Memory, address: nat, elemSize: nat, decode: Decoder<T>, size: nat, i: nat): seq<T>
    decreases size - i
  {
    if i >= size then []
    else match ElementAt(m, address, elemSize, decode, i)
      case None => []
      case Some(x) => [x] + ItemsFrom(m, address, elemSize, decode, size, i + 1)
  }

  /**
   * The items from `i` are exactly the elements `i`, `i + 1`, ... in order, at most `size - i` of
   * them, and when there are fewer the next element is unreadable.
   */
  lemma {:induction false} ItemsFromAreElements<T>(m: Memory, address: nat, elemSize: nat, decode: Decoder<T>, size: nat, i: nat)
    ensures var items := ItemsFrom(m, address, elemSize, decode, size, i);
            && |items| <= (if i <= size then size - i else 0)
            && (forall k :: 0 <= k < |items| ==> Some(items[k]) == ElementAt(m, address, elemSize, decode, i + k))
            && (i + |items| < size ==> ElementAt(m, address, elemSize, decode, i + |items|).None?)
    decreases size - i
  {
    if i < size && ElementAt(m, address, elemSize, decode, i).Some? {
      ItemsFromAreElements(m, address, elemSize, decode, size, i + 1);
      var items := ItemsFrom(m, address, elemSize, decode, size, i);
      var rest := ItemsFrom(m, address, elemSize, decode, size, i + 1);
      assert items == [ElementAt(m, address, elemSize, decode, i).value] + rest;
      forall k | 0 <= k < |items|
        ensures Some(items[k]) == ElementAt(m, address, elemSize, decode, i + k)
      {
        if k > 0 { assert items[k] == rest[k - 1]; }
      }
    }
  }

  /** An iterator over a `TArray`, with the count read when it was created. */
  class TArrayIterator<T> {
    const address: nat
    const elemSize: nat
    const decode: Decoder<T>
    const size: nat
    var index: nat

    constructor (address: nat, elemSize: nat, decode: Decoder<T>, size: nat)
      ensures this.address == address && this.elemSize == elemSize && this.decode == decode
      ensures this.size == size && index == 0
    {
      this.address := address;
      this.elemSize := elemSize;
      this.decode := decode;
      this.size := size;
      index := 0;
    }

    /** What the iterator still yields on memory `m`. */
    function Remaining(m: Memory): seq<T>
      reads this
    {
      ItemsFrom(m, address, elemSize, decode, size, index)
    }

    /** `next`: the element at the current index (if below the count), advancing past it. */
    method Next(m: Memory) returns (item: Option<T>)
      modifies this`index
      ensures old(index) < size ==> item == ElementAt(m, address, elemSize, decode, old(index)) && index == old(index) + 1
      ensures old(index) >= size ==> item.None? && index == old(index)
      ensures item.Some? ==> old(Remaining(m)) == [item.value] + Remaining(m)
      ensures item.None? ==> old(Remaining(m)) == []
    {
      if index >= size {
        return None;
      }
      item := ElementAt(m, address, elemSize, decode, index);
      index := index + 1;
    }
  }

  /** `into_iter`: reads the count (the path [0x8]); an unreadable count is an error. */
  method IntoIter<T>(m: Memory, address: nat, elemSize: nat, decode: Decoder<T>) returns (r: Result<TArrayIterator<T>>)
    ensures r.Ok? <==> ReadU32(m, address + ArrayCount).Some?
    ensures !r.Ok? ==> r == Err(ReadFailed)
    ensures r.Ok? ==> fresh(r.value) && r.value.index == 0 && r.value.size == ReadU32(m, address + ArrayCount).value
    ensures r.Ok? ==> r.value.address == address && r.value.elemSize == elemSize && r.value.decode == decode
    ensures r.Ok? ==> r.value.Remaining(m) == ItemsFrom(m, address, elemSize, decode, ReadU32(m, address + ArrayCount).value, 0)
  {
    var count := ReadPath(m, Bit64, address, [ArrayCount], (mem: Memory, a: nat) => ReadU32(mem, a));
    if !count.Ok? {
      return Err(ReadFailed);
    }
    var it := new TArrayIterator(address, elemSize, decode, count.value);
    r := Ok(it);
  }

  /** The decoder of a 64-bit pointer element. */
  function PointerDecoder(): Decoder<nat>
  {
    (m: Memory, a: nat) => ReadU64(m, a)
  }
}
