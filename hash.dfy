/** `IdentityHasher`: a hasher for keys that already are hashes. It keeps
    the first eight bytes it is given, in an eight-byte buffer filled from a
    write cursor, and reports them as a 64-bit number. */
module Hash {

  type u8 = x: int | 0 <= x < 256

  function Min(a: nat, b: nat): nat {
    if a <= b then a else b
  }

  function Pow256(n: nat): nat {
    if n == 0 then 1 else 256 * Pow256(n - 1)
  }

  /** The number whose bytes, least significant first, are `s`. */
  function LittleEndian(s: seq<u8>): nat {
    if s == [] then 0 else s[0] + 256 * LittleEndian(s[1..])
  }

  /** Byte `i` of `h`, counting from the least significant. */
  function ByteOf(h: nat, i: nat): u8 {
    if i == 0 then h % 256 else ByteOf(h / 256, i - 1)
  }

  lemma {:induction false} LittleEndianBound(s: seq<u8>)
    ensures LittleEndian(s) < Pow256(|s|)
  {
    if s != [] {
      LittleEndianBound(s[1..]);
    }
  }

  lemma {:induction false} ByteOfLittleEndian(s: seq<u8>, i: nat)
    requires i < |s|
    ensures ByteOf(LittleEndian(s), i) == s[i]
  {
    var r := LittleEndian(s[1..]);
    assert LittleEndian(s) == s[0] + 256 * r;
    if i > 0 {
      assert LittleEndian(s) / 256 == r;
      ByteOfLittleEndian(s[1..], i - 1);
    }
  }

  class IdentityHasher {
    /** The write cursor: how many buffer bytes have been filled. */
    var off: nat
    const buf: array<u8>
    /** Every byte handed to `Write` so far, in order. */
    ghost var Written: seq<u8>

    ghost predicate Valid()
      reads this, buf
    {
      && buf.Length == 8
      && off == Min(|Written|, 8)
      && buf[..off] == Written[..off]
      && forall i :: off <= i < 8 ==> buf[i] == 0
    }

    /** `Default`: the cursor at 0 and all eight bytes zero. */
    constructor ()
      ensures Valid() && fresh(buf)
      ensures off == 0 && buf[..] == [0, 0, 0, 0, 0, 0, 0, 0] && Written == []
    {
      buf := new u8[8](_ => 0);
      off := 0;
      Written := [];
    }

    /** `write`: copies as many leading bytes as still fit into the buffer
        at the cursor and advances the cursor by that many; once the buffer
        is full nothing changes. */
    method Write(bytes: seq<u8>)
      requires Valid()
      modifies this, buf
      ensures Valid()
      ensures Written == old(Written) + bytes
      ensures off == old(off) + Min(|bytes|, 8 - old(off))
      ensures buf[..] == old(buf[..])[..old(off)] + bytes[..off - old(off)] + old(buf[..])[off..]
      ensures forall i :: 0 <= i < 8 && !(old(off) <= i < off) ==> buf[i] == old(buf[i])
      ensures old(off) == 8 ==> off == 8 && buf[..] == old(buf[..])
    {
      var n := Min(|bytes|, 8 - off);
      forall i | 0 <= i < n {
        buf[off + i] := bytes[i];
      }
      off := off + n;
      Written := Written + bytes;
    }

    /** `finish`: the eight buffer bytes read as one 64-bit number, least
        significant byte first; the hasher is left as it was. */
    function Finish(): (h: nat)
      reads this, buf
      requires Valid()
      ensures h < 0x1_0000_0000_0000_0000
      ensures forall i :: 0 <= i < 8 ==> ByteOf(h, i) == buf[i]
    {
      AllBytesOf(buf[..]);
      LittleEndianBound(buf[..]);
      LittleEndian(buf[..])
    }

    static lemma AllBytesOf(s: seq<u8>)
      ensures forall i :: 0 <= i < |s| ==> ByteOf(LittleEndian(s), i) == s[i]
    {
      forall i | 0 <= i < |s| {
        ByteOfLittleEndian(s, i);
      }
    }
  }

  /** While at most eight bytes have been written, the buffer starts with
      exactly those bytes, in order, and the rest is zero. */
  lemma ShortInputKept(h: IdentityHasher)
    requires h.Valid() && |h.Written| <= 8
    ensures h.buf[..|h.Written|] == h.Written
    ensures h.buf[..] == h.Written + seq(8 - |h.Written|, _ => 0)
  {
    assert h.Written[..|h.Written|] == h.Written;
  }
}
