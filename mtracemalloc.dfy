/**
 * The static allocator of the malloc tracer
 * (src/libmemtracker/lttng-ust-mtrace-malloc.c): while `dlsym` looks up the
 * real allocator, requests are served from a 4096-byte static buffer by
 * bumping an offset. Each block is preceded by a `size_t` holding the size
 * the caller passed.
 *
 * The model takes an LP64 target (8-byte `size_t` and pointers, stored
 * little-endian). Addresses are offsets into the buffer. The cmpxchg retry
 * loop is one sequential update, and `abort()` is the `Abort` outcome, which
 * leaves the state as it was.
 */
module MtraceMalloc {
  import opened Wrappers

  const STATIC_CALLOC_LEN: nat := 4096
  /** `sizeof(size_t)` and `sizeof(void *)` on an LP64 target. */
  const SIZE_T_BYTES: nat := 8
  const PTR_BYTES: nat := 8
  /** The number of values of a 64-bit `size_t`. */
  const WORD: nat := 0x1_0000_0000_0000_0000

  newtype byte = x: int | 0 <= x < 256

  /** What an allocation request gives back. */
  datatype Outcome = Null | Block(at: nat) | Abort

  predicate IsPowerOfTwo(n: nat)
    decreases n
  {
    n == 1 || (n > 1 && n % 2 == 0 && IsPowerOfTwo(n / 2))
  }

  /** `r` is a whole number of `a`s. */
  ghost predicate MultipleOf(r: nat, a: nat)
  {
    exists k: nat :: k * a == r
  }

  /**
   * `ALIGN(v, align)`: for a power-of-two `align`, adding `align - 1` and
   * clearing the low bits gives the least multiple of `align` that is at
   * least `v`.
   */
  function AlignUp(v: nat, align: nat): (r: nat)
    requires align > 0
    ensures MultipleOf(r, align) && v <= r < v + align
  {
    var q := (v + align - 1) / align;
    assert q * align + (v + align - 1) % align == v + align - 1;
    assert MultipleOf(q * align, align) by { assert q * align == q * align; }
    q * align
  }

  /**
   * `static_calloc_aligned` on the offset alone, in exact arithmetic: an
   * empty request gives NULL, a request that does not fit aborts, and any
   * other is placed at the first suitably aligned address that leaves room
   * for the size word, and the offset moves to its end.
   */
  function Alloc(offset: nat, nmemb: nat, size: nat, alignment: nat): (r: (Outcome, nat))
    requires alignment > 0
    ensures r.0.Null? <==> nmemb * size == 0
    ensures !r.0.Block? ==> r.1 == offset
    ensures r.0.Block? ==>
      && MultipleOf(r.0.at, alignment)
      && offset + SIZE_T_BYTES <= r.0.at < offset + SIZE_T_BYTES + alignment
      && r.1 == r.0.at + nmemb * size <= STATIC_CALLOC_LEN
    ensures r.0.Abort? <==> nmemb * size != 0 && AlignUp(offset + SIZE_T_BYTES, alignment) + nmemb * size > STATIC_CALLOC_LEN
  {
    if nmemb * size == 0 then (Null, offset)
    else
      var aligned := AlignUp(offset + SIZE_T_BYTES, alignment);
      var next := aligned + nmemb * size;
      if next > STATIC_CALLOC_LEN then (Abort, offset) else (Block(aligned), next)
  }

  /**
   * `static_calloc_aligned` as written: `nmemb * size` and
   * `aligned_offset + nmemb * size` are computed in 64-bit `size_t`
   * arithmetic, so they wrap.
   */
  function AllocAsWritten(offset: nat, nmemb: nat, size: nat, alignment: nat): (r: (Outcome, nat))
    requires offset <= STATIC_CALLOC_LEN && IsPowerOfTwo(alignment) && alignment < WORD
    ensures r.0.Block? ==> r.1 <= STATIC_CALLOC_LEN
  {
    var product := (nmemb * size) % WORD;
    if product == 0 then (Null, offset)
    else
      var aligned := AlignUp(offset + SIZE_T_BYTES, alignment);
      var next := (aligned + product) % WORD;
      if next > STATIC_CALLOC_LEN then (Abort, offset) else (Block(aligned), next)
  }

  /**
   * `static_malloc(SIZE_MAX)` on a fresh buffer passes the bound check: the
   * end of the request wraps to 7, so a block of 2^64 - 1 bytes is handed out
   * at offset 8 of a 4096-byte buffer instead of aborting.
   */
  lemma {:induction false} HugeRequestWraps()
    ensures AllocAsWritten(0, 1, WORD - 1, 1) == (Block(SIZE_T_BYTES), 7)
    ensures SIZE_T_BYTES + 1 * (WORD - 1) > STATIC_CALLOC_LEN
    ensures Alloc(0, 1, WORD - 1, 1) == (Abort, 0)
  {
    assert IsPowerOfTwo(1);
    assert AlignUp(SIZE_T_BYTES, 1) == SIZE_T_BYTES;
    assert (SIZE_T_BYTES + (WORD - 1)) % WORD == 7;
  }

  /**
   * `static_calloc(2^32, 2^32)` returns NULL as written: the product wraps to
   * 0 in `size_t`, so the request looks empty, while the exact product does
   * not fit and aborts.
   */
  lemma {:induction false} ProductWrapsToNull()
    ensures AllocAsWritten(0, 0x1_0000_0000, 0x1_0000_0000, 1) == (Null, 0)
    ensures Alloc(0, 0x1_0000_0000, 0x1_0000_0000, 1) == (Abort, 0)
  {
    assert IsPowerOfTwo(1);
    assert 0x1_0000_0000 * 0x1_0000_0000 == WORD;
    assert AlignUp(SIZE_T_BYTES, 1) == SIZE_T_BYTES;
  }

  /**
   * The wrap-around is the only difference: when neither the product nor the
   * end offset can reach 2^64, the allocator as written and the exact one
   * give the same result and the same offset.
   */
  lemma {:induction false} AllocAgreesBelowWrap(offset: nat, nmemb: nat, size: nat, alignment: nat)
    requires offset <= STATIC_CALLOC_LEN && IsPowerOfTwo(alignment) && alignment < WORD
    requires STATIC_CALLOC_LEN + SIZE_T_BYTES + alignment + nmemb * size <= WORD
    ensures AllocAsWritten(offset, nmemb, size, alignment) == Alloc(offset, nmemb, size, alignment)
  {
    var product := nmemb * size;
    assert product % WORD == product;
    if product != 0 {
      var aligned := AlignUp(offset + SIZE_T_BYTES, alignment);
      assert aligned + product < WORD;
      assert (aligned + product) % WORD == aligned + product;
    }
  }

  /** Every block the exact allocator hands out lies inside the buffer, after its size word. */
  lemma {:induction false} BlockInsideBuffer(offset: nat, nmemb: nat, size: nat, alignment: nat)
    requires alignment > 0
    ensures var r := Alloc(offset, nmemb, size, alignment);
      r.0.Block? ==> SIZE_T_BYTES <= r.0.at && r.0.at + nmemb * size <= STATIC_CALLOC_LEN && 0 < nmemb * size
  {
  }

  /**
   * Two successive allocations never overlap: the second block, size word
   * included, starts at or after the end of the first, and the offset only
   * grows.
   */
  lemma {:induction false} SuccessiveBlocksDisjoint(offset: nat, n1: nat, s1: nat, a1: nat, n2: nat, s2: nat, a2: nat)
    requires a1 > 0 && a2 > 0
    ensures var r1 := Alloc(offset, n1, s1, a1);
      var r2 := Alloc(r1.1, n2, s2, a2);
      && offset <= r1.1 <= r2.1
      && (r1.0.Block? && r2.0.Block? ==> r1.0.at + n1 * s1 <= r2.0.at - SIZE_T_BYTES)
  {
  }

  // ---------------------------------------------------------------------
  // The size word
  // ---------------------------------------------------------------------

  function Pow256(n: nat): (r: nat)
    ensures r > 0
  {
    if n == 0 then 1 else 256 * Pow256(n - 1)
  }

  /** The low `n` bytes of `x`, least significant first. */
  function LittleEndian(x: nat, n: nat): (r: seq<byte>)
    ensures |r| == n
  {
    if n == 0 then [] else [(x % 256) as byte] + LittleEndian(x / 256, n - 1)
  }

  /** The number the bytes stand for, least significant first. */
  function FromLittleEndian(s: seq<byte>): nat
  {
    if s == [] then 0 else s[0] as nat + 256 * FromLittleEndian(s[1..])
  }

  /** Reading back the `n` bytes written for a value that fits in them gives the value. */
  lemma {:induction false} LittleEndianRoundTrip(x: nat, n: nat)
    requires x < Pow256(n)
    ensures FromLittleEndian(LittleEndian(x, n)) == x
  {
    if n > 0 {
      var s := LittleEndian(x, n);
      assert s[1..] == LittleEndian(x / 256, n - 1);
      assert x / 256 < Pow256(n - 1);
      LittleEndianRoundTrip(x / 256, n - 1);
      assert FromLittleEndian(s) == x % 256 + 256 * (x / 256);
    }
  }

  /** A `size_t` survives being stored in the size word and read back. */
  lemma {:induction false} SizeWordRoundTrip(size: nat)
    requires size < WORD
    ensures FromLittleEndian(LittleEndian(size, SIZE_T_BYTES)) == size
  {
    assert Pow256(SIZE_T_BYTES) == WORD;
    LittleEndianRoundTrip(size, SIZE_T_BYTES);
  }

  /** The size word in front of the block at `p`. */
  function SizeWord(bytes: seq<byte>, p: nat): nat
    requires SIZE_T_BYTES <= p <= |bytes|
  {
    FromLittleEndian(bytes[p - SIZE_T_BYTES..p])
  }

  /** `free`'s test: the address lies in the static buffer, which starts at `base`. */
  predicate InStaticBuffer(base: int, ptr: int)
  {
    base <= ptr < base + STATIC_CALLOC_LEN
  }

  /**
   * Every block the static allocator hands out passes `free`'s range test,
   * so `free` never passes it on to the real allocator.
   */
  lemma {:induction false} StaticBlocksNotFreed(base: int, offset: nat, nmemb: nat, size: nat, alignment: nat)
    requires alignment > 0
    ensures var r := Alloc(offset, nmemb, size, alignment);
      r.0.Block? ==> InStaticBuffer(base, base + r.0.at)
  {
  }

  /** `posix_memalign`'s test: a power of two no smaller than a pointer. */
  predicate GoodAlignment(alignment: nat)
  {
    IsPowerOfTwo(alignment) && alignment >= PTR_BYTES
  }

  class StaticAllocator {
    var buf: array<byte>
    var offset: nat

    /** The buffer has its fixed size and is untouched (zero) from the offset on. */
    predicate Valid()
      reads this, buf
    {
      buf.Length == STATIC_CALLOC_LEN && offset <= STATIC_CALLOC_LEN
      && forall i :: offset <= i < STATIC_CALLOC_LEN ==> buf[i] == 0
    }

    /** A block whose size word and `size`-byte contents lie below the offset. */
    predicate LiveBlock(p: nat)
      reads this, buf
    {
      Valid() && SIZE_T_BYTES <= p <= offset && p + SizeWord(buf[..], p) <= offset
    }

    constructor()
      ensures Valid() && offset == 0 && fresh(buf)
    {
      buf := new byte[STATIC_CALLOC_LEN](_ => 0);
      offset := 0;
    }

    /** Stores `x` in the eight bytes at `at`, least significant first. */
    method WriteSizeWord(at: nat, x: nat)
      requires at + SIZE_T_BYTES <= buf.Length
      modifies buf
      ensures buf[at..at + SIZE_T_BYTES] == LittleEndian(x, SIZE_T_BYTES)
      ensures forall i :: 0 <= i < buf.Length && !(at <= i < at + SIZE_T_BYTES) ==> buf[i] == old(buf[i])
    {
      ghost var word := LittleEndian(x, SIZE_T_BYTES);
      var v := x;
      var k := 0;
      while k < SIZE_T_BYTES
        invariant 0 <= k <= SIZE_T_BYTES
        invariant word[k..] == LittleEndian(v, SIZE_T_BYTES - k)
        invariant forall j :: 0 <= j < k ==> buf[at + j] == word[j]
        invariant forall i :: 0 <= i < buf.Length && !(at <= i < at + k) ==> buf[i] == old(buf[i])
      {
        assert word[k] == (v % 256) as byte && word[k + 1..] == LittleEndian(v / 256, SIZE_T_BYTES - k - 1) by {
          assert word[k..][0] == word[k] && word[k..][1..] == word[k + 1..];
        }
        buf[at + k] := (v % 256) as byte;
        v := v / 256;
        k := k + 1;
      }
      assert buf[at..at + SIZE_T_BYTES] == word;
    }

    /**
     * `static_calloc_aligned`: places the block, moves the offset and writes
     * the size word in front of the block. Nothing else in the buffer
     * changes, so the block reads as zeros.
     */
    method CallocAligned(nmemb: nat, size: nat, alignment: nat) returns (r: Outcome)
      requires Valid() && alignment > 0
      modifies this, buf
      ensures Valid() && buf == old(buf)
      ensures (r, offset) == Alloc(old(offset), nmemb, size, alignment)
      ensures r.Block? ==>
        && buf[r.at - SIZE_T_BYTES..r.at] == LittleEndian(size, SIZE_T_BYTES)
        && (forall i :: r.at <= i < offset ==> buf[i] == 0)
        && (forall i :: 0 <= i < buf.Length && !(r.at - SIZE_T_BYTES <= i < r.at) ==> buf[i] == old(buf[i]))
      ensures !r.Block? ==> buf[..] == old(buf[..])
    {
      if nmemb * size == 0 {
        return Null;
      }
      var aligned := AlignUp(offset + SIZE_T_BYTES, alignment);
      var next := aligned + nmemb * size;
      if next > STATIC_CALLOC_LEN {
        return Abort;
      }
      ghost var start := offset;
      offset := next;
      WriteSizeWord(aligned - SIZE_T_BYTES, size);
      r := Block(aligned);
      assert forall i :: aligned <= i < STATIC_CALLOC_LEN ==> buf[i] == old(buf[i]) == 0 by {
        assert start <= aligned;
      }
      assert buf.Length == STATIC_CALLOC_LEN;
      assert offset <= STATIC_CALLOC_LEN;
      assert forall i :: offset <= i < STATIC_CALLOC_LEN ==> buf[i] == 0;
    }

    /** `static_calloc`: byte alignment. */
    method Calloc(nmemb: nat, size: nat) returns (r: Outcome)
      requires Valid()
      modifies this, buf
      ensures Valid() && buf == old(buf)
      ensures (r, offset) == Alloc(old(offset), nmemb, size, 1)
      ensures r.Block? ==>
        && buf[r.at - SIZE_T_BYTES..r.at] == LittleEndian(size, SIZE_T_BYTES)
        && (forall i :: r.at <= i < offset ==> buf[i] == 0)
        && (forall i :: 0 <= i < buf.Length && !(r.at - SIZE_T_BYTES <= i < r.at) ==> buf[i] == old(buf[i]))
      ensures !r.Block? ==> buf[..] == old(buf[..])
    {
      r := CallocAligned(nmemb, size, 1);
    }

    /** `static_malloc`: one element of `size` bytes. */
    method Malloc(size: nat) returns (r: Outcome)
      requires Valid()
      modifies this, buf
      ensures Valid() && buf == old(buf)
      ensures (r, offset) == Alloc(old(offset), 1, size, 1)
      ensures r.Block? ==>
        && buf[r.at - SIZE_T_BYTES..r.at] == LittleEndian(size, SIZE_T_BYTES)
        && (forall i :: r.at <= i < offset ==> buf[i] == 0)
        && (forall i :: 0 <= i < buf.Length && !(r.at - SIZE_T_BYTES <= i < r.at) ==> buf[i] == old(buf[i]))
      ensures !r.Block? ==> buf[..] == old(buf[..])
    {
      r := CallocAligned(1, size, 1);
    }

    /** `static_memalign`: one element at the given alignment. */
    method Memalign(alignment: nat, size: nat) returns (r: Outcome)
      requires Valid() && IsPowerOfTwo(alignment)
      modifies this, buf
      ensures Valid() && buf == old(buf)
      ensures (r, offset) == Alloc(old(offset), 1, size, alignment)
      ensures r.Block? ==>
        && buf[r.at - SIZE_T_BYTES..r.at] == LittleEndian(size, SIZE_T_BYTES)
        && (forall i :: r.at <= i < offset ==> buf[i] == 0)
        && (forall i :: 0 <= i < buf.Length && !(r.at - SIZE_T_BYTES <= i < r.at) ==> buf[i] == old(buf[i]))
      ensures !r.Block? ==> buf[..] == old(buf[..])
    {
      r := CallocAligned(1, size, alignment);
    }

    /**
     * `static_posix_memalign`: a bad alignment leaves `*memptr` as it was;
     * otherwise it receives a block. The return value is always 0.
     */
    method PosixMemalign(memptr: Outcome, alignment: nat, size: nat) returns (ret: int, out: Outcome)
      requires Valid()
      modifies this, buf
      ensures Valid() && buf == old(buf) && ret == 0
      ensures !GoodAlignment(alignment) ==> out == memptr && offset == old(offset) && buf[..] == old(buf[..])
      ensures GoodAlignment(alignment) ==> (out, offset) == Alloc(old(offset), 1, size, alignment)
      ensures GoodAlignment(alignment) && out.Block? ==>
        && buf[out.at - SIZE_T_BYTES..out.at] == LittleEndian(size, SIZE_T_BYTES)
        && (forall i :: out.at <= i < offset ==> buf[i] == 0)
        && (forall i :: 0 <= i < buf.Length && !(out.at - SIZE_T_BYTES <= i < out.at) ==> buf[i] == old(buf[i]))
      ensures GoodAlignment(alignment) && !out.Block? ==> buf[..] == old(buf[..])
    {
      out := memptr;
      if !IsPowerOfTwo(alignment) || alignment < PTR_BYTES || alignment == 0 {
        return 0, out;
      }
      out := CallocAligned(1, size, alignment);
      ret := 0;
    }

    /** Copies `n` bytes from `src` to `dst`, the regions not overlapping. */
    method Memcpy(dst: nat, src: nat, n: nat)
      requires src + n <= dst <= buf.Length - n
      modifies buf
      ensures buf[dst..dst + n] == old(buf[src..src + n])
      ensures forall i :: 0 <= i < buf.Length && !(dst <= i < dst + n) ==> buf[i] == old(buf[i])
    {
      var k := 0;
      while k < n
        invariant 0 <= k <= n
        invariant buf[dst..dst + k] == old(buf[src..src + k])
        invariant forall i :: 0 <= i < buf.Length && !(dst <= i < dst + k) ==> buf[i] == old(buf[i])
      {
        buf[dst + k] := buf[src + k];
        assert buf[dst..dst + k + 1] == buf[dst..dst + k] + [buf[dst + k]];
        assert old(buf[src..src + k + 1]) == old(buf[src..src + k]) + [old(buf[src + k])];
        k := k + 1;
      }
    }

    /**
     * `static_realloc`: size 0 gives NULL; a block whose size word is at
     * least `size` is reused with the word lowered to `size`; anything else
     * gets a fresh block holding a copy of the old block's recorded bytes.
     */
    method Realloc(ptr: Option<nat>, size: nat) returns (r: Outcome)
      requires Valid() && size < WORD
      requires ptr.Some? ==> LiveBlock(ptr.value)
      modifies this, buf
      ensures Valid() && buf == old(buf)
      ensures size == 0 ==> r == Null && offset == old(offset) && buf[..] == old(buf[..])
      ensures size > 0 && ptr.Some? && size <= old(SizeWord(buf[..], ptr.value)) ==>
        && r == Block(ptr.value) && offset == old(offset)
        && SizeWord(buf[..], ptr.value) == size
        && LiveBlock(ptr.value)
        && (forall i :: 0 <= i < buf.Length && !(ptr.value - SIZE_T_BYTES <= i < ptr.value) ==> buf[i] == old(buf[i]))
      ensures size > 0 && (ptr.None? || old(SizeWord(buf[..], ptr.value)) < size) ==>
        (r, offset) == Alloc(old(offset), 1, size, 1)
      ensures size > 0 && ptr.None? && r.Block? ==>
        && buf[r.at - SIZE_T_BYTES..r.at] == LittleEndian(size, SIZE_T_BYTES)
        && (forall i :: r.at <= i < offset ==> buf[i] == 0)
        && (forall i :: 0 <= i < buf.Length && !(r.at - SIZE_T_BYTES <= i < r.at) ==> buf[i] == old(buf[i]))
      ensures size > 0 && ptr.Some? && old(SizeWord(buf[..], ptr.value)) < size && r.Block? ==>
        var n := old(SizeWord(buf[..], ptr.value));
        && buf[r.at - SIZE_T_BYTES..r.at] == LittleEndian(size, SIZE_T_BYTES)
        && buf[r.at..r.at + n] == old(buf[ptr.value..ptr.value + SizeWord(buf[..], ptr.value)])
        && (forall i :: r.at + n <= i < offset ==> buf[i] == 0)
        && (forall i :: 0 <= i < buf.Length && !(r.at - SIZE_T_BYTES <= i < r.at + n) ==> buf[i] == old(buf[i]))
      ensures size > 0 && (ptr.None? || old(SizeWord(buf[..], ptr.value)) < size) && !r.Block? ==>
        buf[..] == old(buf[..])
    {
      if size == 0 {
        return Null;
      }
      if ptr.Some? {
        var p := ptr.value;
        var oldSize := FromLittleEndian(buf[p - SIZE_T_BYTES..p]);
        if size <= oldSize {
          WriteSizeWord(p - SIZE_T_BYTES, size);
          SizeWordRoundTrip(size);
          assert buf[..][p - SIZE_T_BYTES..p] == buf[p - SIZE_T_BYTES..p];
          return Block(p);
        }
        r := Move(p, oldSize, size);
      } else {
        r := CallocAligned(1, size, 1);
      }
    }

    /** The growing half of `static_realloc`: a fresh block receives the old block's recorded bytes. */
    method Move(p: nat, oldSize: nat, size: nat) returns (r: Outcome)
      requires Valid() && 0 < size < WORD && LiveBlock(p)
      requires oldSize == SizeWord(buf[..], p) && oldSize < size
      modifies this, buf
      ensures Valid() && buf == old(buf)
      ensures (r, offset) == Alloc(old(offset), 1, size, 1)
      ensures r.Block? ==>
        && buf[r.at - SIZE_T_BYTES..r.at] == LittleEndian(size, SIZE_T_BYTES)
        && buf[r.at..r.at + oldSize] == old(buf[p..p + oldSize])
        && (forall i :: r.at + oldSize <= i < offset ==> buf[i] == 0)
        && (forall i :: 0 <= i < buf.Length && !(r.at - SIZE_T_BYTES <= i < r.at + oldSize) ==> buf[i] == old(buf[i]))
      ensures !r.Block? ==> buf[..] == old(buf[..])
    {
      ghost var before := buf[..];
      r := CallocAligned(1, size, 1);
      if r.Block? {
        assert buf[p..p + oldSize] == before[p..p + oldSize];
        Memcpy(r.at, p, oldSize);
      }
    }
  }
}
