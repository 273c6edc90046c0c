/** The size of a zvol (internal/controller/zfsdataset_controller.go): rounding up in
    64-bit arithmetic, and growing without ever shrinking. */
module Sizes {
  const MAX := 0x7fff_ffff_ffff_ffff

  type Int64 = x: int | -MAX - 1 <= x <= MAX

  /** Two's complement overflow. */
  function Wrap(x: int): Int64 {
    (x + MAX + 1) % (2 * MAX + 2) - MAX - 1
  }

  function AlignUp(size: Int64, block: Int64): Int64 {
    if block <= 0 || size <= 0 then (if size < 0 then 0 else size)
    else if size % block != 0 then Wrap(size + (block - size % block))
    else size
  }

  /** The least multiple of `block` that is not below `size`. */
  ghost predicate LeastMultiple(m: int, size: int, block: int)
    requires block > 0
  {
    m % block == 0 && size <= m && forall k :: k % block == 0 && size <= k ==> m <= k
  }

  /** No multiple of `block` up to MAX reaches `size`. */
  predicate TooLarge(size: Int64, block: Int64)
    requires block > 0
  {
    size > MAX - MAX % block
  }

  lemma Below(a: int, b: int, block: int)
    requires a <= b && block > 0
    ensures a * block <= b * block
  {
    assert (b - a) * block >= 0;
  }

  /** Quotient and remainder are unique. */
  lemma DivMod(x: int, q: int, r: int, block: int)
    requires block > 0 && 0 <= r < block && x == q * block + r
    ensures x / block == q && x % block == r
  {
    var d := x / block - q;
    assert x == x / block * block + x % block;
    assert d * block == r - x % block;
    if d > 0 { Below(1, d, block); } else if d < 0 { Below(d, -1, block); }
  }

  lemma Multiple(q: int, block: int)
    requires block > 0
    ensures q * block % block == 0
  {
    assert q * block == q * block + 0;
    DivMod(q * block, q, 0, block);
  }

  lemma NextMultiple(size: int, block: int)
    requires size > 0 && block > 0 && size % block != 0
    ensures LeastMultiple(size + (block - size % block), size, block)
  {
    var q, r := size / block, size % block;
    assert size + (block - r) == (q + 1) * block;
    Multiple(q + 1, block);
    forall k | k % block == 0 && size <= k ensures (q + 1) * block <= k {
      assert k == k / block * block;
      if k / block <= q { Below(k / block, q, block); }
      else { Below(q + 1, k / block, block); }
    }
  }

  /** The multiples of `block` that fit are those up to MAX - MAX % block. */
  lemma TopMultiple(m: int, block: int)
    requires block > 0 && m % block == 0
    ensures m <= MAX <==> m <= MAX - MAX % block
  {
    var q := MAX / block;
    assert MAX == q * block + MAX % block && m == m / block * block;
    if m / block <= q { Below(m / block, q, block); } else { Below(q + 1, m / block, block); }
  }

  lemma WrapAround(x: int)
    requires 0 < x <= 2 * MAX
    ensures Wrap(x) == if x <= MAX then x else x - 2 * MAX - 2
  {
  }

  lemma SelfMultiple(size: int, block: int)
    requires block > 0 && size % block == 0
    ensures LeastMultiple(size, size, block)
  {
  }

  lemma TopReaches(size: int, block: int, up: int)
    requires 0 < size <= MAX && block > 0 && LeastMultiple(up, size, block)
    ensures up <= MAX <==> size <= MAX - MAX % block
  {
    TopMultiple(up, block);
    assert MAX - MAX % block == MAX / block * block;
    Multiple(MAX / block, block);
  }

  /** Rounding up is right exactly for the sizes that some multiple reaches; beyond them it overflows
      to a negative number. */
  lemma AlignUpIsLeast(size: Int64, block: Int64)
    requires size > 0 && block > 0
    ensures LeastMultiple(AlignUp(size, block), size, block) <==> !TooLarge(size, block)
    ensures TooLarge(size, block) ==> AlignUp(size, block) < 0
  {
    var r := size % block;
    if r == 0 {
      SelfMultiple(size, block);
      TopMultiple(size, block);
    } else {
      var up := size + (block - r);
      NextMultiple(size, block);
      TopMultiple(up, block);
      WrapAround(up);
      TopReaches(size, block, up);
    }
  }

  // ------------------------------------------------------------------------ growing

  /** Without a block size the size is left alone, and there is no negative one. */
  lemma AlignUpOtherwise(size: Int64, block: Int64)
    requires size <= 0 || block <= 0
    ensures AlignUp(size, block) >= 0 && (size >= 0 ==> AlignUp(size, block) == size)
    ensures size < 0 ==> AlignUp(size, block) == 0
  {
  }

  /** A zvol, its block size, and how often its size was set. */
  class Zvol {
    var volsize: Int64
    const block: Int64
    ghost var writes: nat

    constructor (volsize: Int64, block: Int64)
      ensures this.volsize == volsize && this.block == block && writes == 0
    {
      this.volsize, this.block, writes := volsize, block, 0;
    }

    /** Set the size if the wanted one, rounded up, is larger. */
    method EnsureSize(size: Int64)
      modifies this
      ensures volsize == if AlignUp(size, block) > old(volsize) then AlignUp(size, block) else old(volsize)
      ensures volsize >= old(volsize) && (writes == old(writes) <==> volsize == old(volsize)) && writes >= old(writes)
      ensures size > 0 && block > 0 && !TooLarge(size, block) ==>
          volsize >= size && (volsize == old(volsize) || LeastMultiple(volsize, size, block))
    {
      var desired := AlignUp(size, block);
      if size > 0 && block > 0 { AlignUpIsLeast(size, block); }
      if desired > volsize {
        volsize := desired;
        writes := writes + 1;
      }
    }

    /** Any history of wanted sizes: the volume never shrinks, ends up at least as large as each of them
        that can be reached, and reconciling any of them again writes nothing. */
    method Follow(sizes: seq<Int64>)
      modifies this
      ensures volsize >= old(volsize)
      ensures forall i :: 0 <= i < |sizes| ==> AlignUp(sizes[i], block) <= volsize
      ensures volsize == old(volsize) || exists i :: 0 <= i < |sizes| && volsize == AlignUp(sizes[i], block)
      ensures block > 0 ==> forall i :: 0 <= i < |sizes| && sizes[i] > 0 && !TooLarge(sizes[i], block) ==>
          sizes[i] <= volsize
      ensures writes == old(writes) <==> forall i :: 0 <= i < |sizes| ==> AlignUp(sizes[i], block) <= old(volsize)
    {
      for i := 0 to |sizes|
        invariant volsize >= old(volsize) && writes >= old(writes)
        invariant forall j :: 0 <= j < i ==> AlignUp(sizes[j], block) <= volsize
        invariant volsize == old(volsize) || exists j :: 0 <= j < i && volsize == AlignUp(sizes[j], block)
        invariant block > 0 ==> forall j :: 0 <= j < i && sizes[j] > 0 && !TooLarge(sizes[j], block) ==>
            sizes[j] <= volsize
        invariant writes == old(writes) <==> volsize == old(volsize)
      {
        EnsureSize(sizes[i]);
      }
    }
  }
}
