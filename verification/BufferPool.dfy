/** A pool of equally sized buffers, handed out and returned one at a time. */
module BufferPool {
  import opened Common

  /** Which buffers are free, and what each of them holds. */
  datatype Buffers = Buffers(free: seq<bool>, memory: seq<seq<byte>>)

  ghost predicate ValidBuffers(b: Buffers, bufferSize: nat) {
    && |b.free| == |b.memory|
    && forall i :: 0 <= i < |b.memory| ==> |b.memory[i]| == bufferSize
  }

  /** The first free buffer at or after `from`. */
  function FirstFree(free: seq<bool>, from: nat := 0): (r: Option<nat>)
    requires from <= |free|
    ensures r.Some? ==> from <= r.value < |free| && free[r.value]
    ensures r.None? ==> forall i :: from <= i < |free| ==> !free[i]
    decreases |free| - from
  {
    if from == |free| then None
    else if free[from] then Some(from)
    else FirstFree(free, from + 1)
  }

  /** The number of free buffers among the first `n`. */
  function Available(free: seq<bool>, n: nat := |free|): (r: nat)
    requires n <= |free|
    ensures r <= n
  {
    if n == 0 then 0 else Available(free, n - 1) + if free[n - 1] then 1 else 0
  }

  lemma {:induction false} AvailableUpdate(free: seq<bool>, i: nat, to: bool, n: nat := |free|)
    requires i < |free| && n <= |free|
    ensures Available(free[i := to], n)
         == Available(free, n) + if i >= n || free[i] == to then 0 else if to then 1 else -1
    decreases n
  {
    if n > 0 {
      AvailableUpdate(free, i, to, n - 1);
    }
  }

  lemma {:induction false} AllAvailable(free: seq<bool>, n: nat := |free|)
    requires n <= |free| && forall i :: 0 <= i < n ==> free[i]
    ensures Available(free, n) == n
    decreases n
  {
    if n > 0 {
      AllAvailable(free, n - 1);
    }
  }

  /** Marks a buffer as used and fills its beginning. */
  function Fill(b: Buffers, i: nat, data: seq<byte>): Buffers
    requires i < |b.free| == |b.memory| && |data| <= |b.memory[i]|
  {
    Buffers(b.free[i := false], b.memory[i := data + b.memory[i][|data|..]])
  }

  function Release(b: Buffers, i: nat): Buffers
    requires i < |b.free|
  {
    b.(free := b.free[i := true])
  }

  // ---------- In memory ----------

  class Pool {
    const poolSize: nat
    const bufferSize: nat
    const free: array<bool>
    const memory: array2<byte>

    ghost predicate Valid()
      reads this
    {
      free.Length == memory.Length0 == poolSize && memory.Length1 == bufferSize
    }

    ghost function View(): (b: Buffers)
      requires Valid()
      reads this, free, memory
      ensures ValidBuffers(b, bufferSize) && |b.free| == poolSize
    {
      Buffers(free[..], seq(poolSize, i requires 0 <= i < poolSize reads this, memory => Row(i)))
    }

    ghost function Row(i: nat): (r: seq<byte>)
      requires Valid() && i < poolSize
      reads this, memory
    {
      seq(bufferSize, j requires 0 <= j < bufferSize reads this, memory => memory[i, j])
    }

    constructor (poolSize: nat, bufferSize: nat)
      ensures Valid() && fresh(free) && fresh(memory)
      ensures this.poolSize == poolSize && this.bufferSize == bufferSize
      ensures forall i :: 0 <= i < poolSize ==> View().free[i]
    {
      this.poolSize, this.bufferSize := poolSize, bufferSize;
      free := new bool[poolSize](_ => true);
      memory := new byte[poolSize, bufferSize];
    }

    /** Finds a free buffer and marks it as used. */
    method Allocate() returns (index: Option<nat>)
      requires Valid()
      modifies free
      ensures index == FirstFree(old(View().free))
      ensures View() == if index.Some? then old(View()).(free := old(View().free)[index.value := false])
                        else old(View())
    {
      var i := 0;
      while i < poolSize
        invariant 0 <= i <= poolSize && View() == old(View())
        invariant FirstFree(free[..]) == FirstFree(free[..], i)
      {
        if free[i] {
          ghost var was := View();
          free[i] := false;
          assert View().memory == was.memory;
          return Some(i);
        }
        i := i + 1;
      }
      index := None;
    }

    /** What destroying a pooled buffer does. */
    method Free(i: nat)
      requires Valid() && i < poolSize
      modifies free
      ensures View() == Release(old(View()), i)
    {
      ghost var was := View();
      free[i] := true;
      assert View().memory == was.memory;
    }

    method GetAvailableSize() returns (s: nat)
      requires Valid()
      ensures s == Available(View().free)
    {
      s := 0;
      for i := 0 to poolSize
        invariant s == Available(free[..], i)
      {
        if free[i] {
          s := s + 1;
        }
      }
    }

    /** Bytes `from` to `to` of a buffer. */
    method Read(i: nat, from: nat, to: nat) returns (data: seq<byte>)
      requires Valid() && i < poolSize && from <= to <= bufferSize
      ensures data == View().memory[i][from..to]
    {
      data := [];
      for j := from to to
        invariant data == View().memory[i][from..j]
      {
        data := data + [memory[i, j]];
      }
    }

    /** Copies data to the beginning of a buffer. */
    method Write(i: nat, data: seq<byte>)
      requires Valid() && i < poolSize && |data| <= bufferSize
      modifies memory
      ensures View() == old(View()).(memory := old(View().memory)[i := data + old(View().memory)[i][|data|..]])
    {
      ghost var was := View();
      var j := 0;
      while j < |data|
        invariant 0 <= j <= |data|
        invariant forall r, k :: 0 <= r < poolSize && 0 <= k < bufferSize ==>
                    memory[r, k] == if r == i && k < j then data[k] else was.memory[r][k]
      {
        memory[i, j] := data[j];
        j := j + 1;
      }
      forall r | 0 <= r < poolSize
        ensures View().memory[r] == if r == i then data + was.memory[i][|data|..] else was.memory[r]
      {
        assert View().memory[r] == Row(r);
      }
    }
  }
}
