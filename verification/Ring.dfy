/** A ring buffer that overwrites its oldest elements when it is full. */
module RingBuffer {
  import opened Common

  /** The last `n` elements. */
  function Last<T>(s: seq<T>, n: nat): (r: seq<T>)
    ensures |r| == if |s| < n then |s| else n
  {
    if |s| <= n then s else s[|s| - n..]
  }

  /** Forgetting early or late makes no difference. */
  lemma LastOfLast<T>(a: seq<T>, b: seq<T>, n: nat)
    ensures Last(Last(a, n) + b, n) == Last(a + b, n)
  {
    if |a| > n {
      assert Last(a, n) + b == (a + b)[|a| - n..];
    }
  }

  lemma PushOne(before: seq<byte>, items: seq<byte>, i: nat, n: nat)
    requires i < |items|
    ensures Last(Last(before + items[..i], n) + [items[i]], n) == Last(before + items[..i + 1], n)
  {
    LastOfLast(before + items[..i], [items[i]], n);
    assert before + items[..i] + [items[i]] == before + items[..i + 1];
  }

  class Ring {
    const storage: array<byte>
    var head: nat
    var size: nat

    ghost predicate Valid()
      reads this
    {
      size <= storage.Length && (head < storage.Length || head == 0)
    }

    /** The elements, oldest first. */
    ghost function View(): (s: seq<byte>)
      requires Valid()
      reads this, storage
      ensures |s| == size
    {
      seq(size, i requires 0 <= i < size && Valid() reads this, storage => At(i))
    }

    /** The element at a logical position. */
    ghost function At(i: nat): byte
      requires Valid() && i < size
      reads this, storage
    {
      storage[NormalizeIndex(head + i)]
    }

    constructor (capacity: nat)
      ensures Valid() && fresh(storage) && storage.Length == capacity && View() == []
    {
      storage := new byte[capacity];
      head, size := 0, 0;
    }

    /** An index that ran off the end, brought back to the beginning. */
    function NormalizeIndex(i: nat): (r: nat)
      requires i < 2 * storage.Length
      ensures r < storage.Length
    {
      if i < storage.Length then i else i - storage.Length
    }

    method Get(i: nat) returns (x: byte)
      requires Valid() && i < size
      ensures x == View()[i]
    {
      x := storage[NormalizeIndex(head + i)];
    }

    method GetSize() returns (s: nat)
      requires Valid()
      ensures s == |View()|
    {
      s := size;
    }

    method Clear()
      requires Valid()
      modifies this
      ensures Valid() && View() == []
    {
      size := 0;
    }

    /** Drops the oldest element, if there is one. */
    method Pop()
      requires Valid()
      modifies this
      ensures Valid() && View() == if old(View()) == [] then [] else old(View())[1..]
    {
      if size > 0 {
        size := size - 1;
        head := NormalizeIndex(head + 1);
        forall i | 0 <= i < size ensures At(i) == old(At(i + 1)) {
        }
      }
    }

    /** Appends an element, dropping the oldest one if the ring is full. */
    method Push(item: byte)
      requires Valid()
      modifies this, storage
      ensures Valid() && View() == Last(old(View()) + [item], storage.Length)
    {
      if size == storage.Length {
        if size == 0 {
          return;
        }
        head := NormalizeIndex(head + 1);
      } else {
        size := size + 1;
      }
      storage[NormalizeIndex(head + size - 1)] := item;
      forall i | 0 <= i < size
        ensures At(i) == if i == size - 1 then item
                         else if old(size) == storage.Length then old(At(i + 1))
                         else old(At(i))
      {
      }
    }

    /** Pushing one element after another keeps the last ones that fit. */
    method PushAll(items: seq<byte>)
      requires Valid()
      modifies this, storage
      ensures Valid() && View() == Last(old(View()) + items, storage.Length)
    {
      ghost var before := View();
      for i := 0 to |items|
        invariant Valid() && View() == Last(before + items[..i], storage.Length)
      {
        PushOne(before, items, i, storage.Length);
        Push(items[i]);
      }
      assert items[..|items|] == items;
    }
  }
}
