/** Little-endian views of 32-bit words as bytes: the layout of the host
    (x86) the emulator runs on, which is how a word stored through a
    `uint32_t` pointer, or copied out of a `uint32_t` array, appears in a
    byte buffer. Also the data masks that say how wide an access is. */
module LittleEndian {

  /** Byte `k` of `d`, counting from the least significant byte. */
  function ByteAt(d: bv32, k: nat): (byte: bv8)
    requires k < 4
  {
    match k
    case 0 => (d & 0xff) as bv8
    case 1 => ((d >> 8) & 0xff) as bv8
    case 2 => ((d >> 16) & 0xff) as bv8
    case 3 => (d >> 24) as bv8
  }

  /** A word is determined by its four bytes. */
  lemma WordFromBytes(x: bv32, y: bv32)
    requires forall k :: 0 <= k < 4 ==> ByteAt(x, k) == ByteAt(y, k)
    ensures x == y
  {
    assert ByteAt(x, 0) == ByteAt(y, 0) && ByteAt(x, 1) == ByteAt(y, 1);
    assert ByteAt(x, 2) == ByteAt(y, 2) && ByteAt(x, 3) == ByteAt(y, 3);
  }

  /** The masks the memory dispatch passes for 8-, 16- and 32-bit accesses. */
  predicate IsAccessMask(mask: bv32)
  {
    mask == 0xff || mask == 0xffff || mask == 0xffff_ffff
  }

  /** Number of bytes an access with `mask` covers. */
  function MaskBytes(mask: bv32): (n: nat)
    requires IsAccessMask(mask)
    ensures n == 1 || n == 2 || n == 4
  {
    if mask == 0xff then 1 else if mask == 0xffff then 2 else 4
  }

  /** Masking a word with an access mask keeps exactly the bytes the access
      covers and clears the others. */
  lemma MaskedBytes(d: bv32, mask: bv32)
    requires IsAccessMask(mask)
    ensures forall k :: 0 <= k < 4 ==>
      ByteAt(d & mask, k) == if k < MaskBytes(mask) then ByteAt(d, k) else 0
  {
    forall k | 0 <= k < 4
      ensures ByteAt(d & mask, k) == if k < MaskBytes(mask) then ByteAt(d, k) else 0
    {
      if k == 0 {
      } else if k == 1 {
      } else if k == 2 {
      } else {
      }
    }
  }

  /** The word whose low `n` bytes are `s[off..off + n]`, least significant
      first, and whose other bytes are 0. */
  function LoadLE(s: seq<bv8>, off: nat, n: nat): (d: bv32)
    requires n <= 4 && off + n <= |s|
  {
    match n
    case 0 => 0
    case 1 => s[off] as bv32
    case 2 => (s[off] as bv32) | ((s[off + 1] as bv32) << 8)
    case 3 => (s[off] as bv32) | ((s[off + 1] as bv32) << 8) | ((s[off + 2] as bv32) << 16)
    case 4 =>
      (s[off] as bv32) | ((s[off + 1] as bv32) << 8) | ((s[off + 2] as bv32) << 16)
      | ((s[off + 3] as bv32) << 24)
  }

  /** Byte `k` of a loaded word is the byte at `off + k` for the `n` bytes
      loaded, and 0 above them. */
  lemma LoadLEBytes(s: seq<bv8>, off: nat, n: nat)
    requires n <= 4 && off + n <= |s|
    ensures forall k :: 0 <= k < 4 ==> ByteAt(LoadLE(s, off, n), k) == if k < n then s[off + k] else 0
  {
    var d := LoadLE(s, off, n);
    forall k | 0 <= k < 4 ensures ByteAt(d, k) == if k < n then s[off + k] else 0 {
      if k == 0 {
      } else if k == 1 {
      } else if k == 2 {
      } else {
      }
    }
  }

  /** `s` with the low `n` bytes of `d` written at `off`, least significant
      first. */
  function StoreLE(s: seq<bv8>, off: nat, n: nat, d: bv32): (r: seq<bv8>)
    requires n <= 4 && off + n <= |s|
    ensures |r| == |s|
    ensures forall k :: 0 <= k < |s| && !(off <= k < off + n) ==> r[k] == s[k]
    ensures forall k :: 0 <= k < n ==> r[off + k] == ByteAt(d, k)
    decreases n
  {
    if n == 0 then s
    else
      var r := StoreLE(s[off := ByteAt(d, 0)], off + 1, n - 1, d >> 8);
      assert forall k :: 1 <= k < n ==> ByteAt(d, k) == ByteAt(d >> 8, k - 1);
      r
  }

  /** Loading `n` bytes that hold the little-endian bytes of `d` gives back
      `d` under the access mask. */
  lemma LoadLEOfBytes(s: seq<bv8>, off: nat, mask: bv32, d: bv32)
    requires IsAccessMask(mask) && off + MaskBytes(mask) <= |s|
    requires forall k :: 0 <= k < MaskBytes(mask) ==> s[off + k] == ByteAt(d, k)
    ensures LoadLE(s, off, MaskBytes(mask)) == d & mask
  {
    var n := MaskBytes(mask);
    LoadLEBytes(s, off, n);
    MaskedBytes(d, mask);
    forall k | 0 <= k < 4 ensures ByteAt(LoadLE(s, off, n), k) == ByteAt(d & mask, k) {
      if k < n {
        assert s[off + k] == ByteAt(d, k);
      }
    }
    WordFromBytes(LoadLE(s, off, n), d & mask);
  }

  /** Storing then loading the same bytes gives back the word under the
      access mask. */
  lemma StoreLoadLE(s: seq<bv8>, off: nat, mask: bv32, d: bv32)
    requires IsAccessMask(mask) && off + MaskBytes(mask) <= |s|
    ensures LoadLE(StoreLE(s, off, MaskBytes(mask), d), off, MaskBytes(mask)) == d & mask
  {
    LoadLEOfBytes(StoreLE(s, off, MaskBytes(mask), d), off, mask, d);
  }

  /** The four bytes of `w`, least significant first. */
  function WordBytes(w: bv32): (bytes: seq<bv8>)
  {
    [ByteAt(w, 0), ByteAt(w, 1), ByteAt(w, 2), ByteAt(w, 3)]
  }

  /** The bytes of an array of words as it lies in host memory: each word's
      bytes in little-endian order, the words one after the other. */
  function WordsToBytes(ws: seq<bv32>): (r: seq<bv8>)
    ensures |r| == 4 * |ws|
    ensures forall k :: 0 <= k < |r| ==> r[k] == ByteAt(ws[k / 4], k % 4)
  {
    if ws == [] then []
    else
      var r := WordBytes(ws[0]) + WordsToBytes(ws[1..]);
      assert forall k :: 4 <= k < |r| ==> (k - 4) / 4 == k / 4 - 1 && (k - 4) % 4 == k % 4;
      r
  }

  /** Reading word `j` back out of the bytes of `ws` gives `ws[j]`. */
  lemma WordsToBytesRoundTrip(ws: seq<bv32>)
    ensures forall j :: 0 <= j < |ws| ==> LoadLE(WordsToBytes(ws), 4 * j, 4) == ws[j]
  {
    var b := WordsToBytes(ws);
    forall j | 0 <= j < |ws| ensures LoadLE(b, 4 * j, 4) == ws[j] {
      forall k | 0 <= k < 4 ensures b[4 * j + k] == ByteAt(ws[j], k) {
        assert (4 * j + k) / 4 == j && (4 * j + k) % 4 == k;
      }
      LoadLEOfBytes(b, 4 * j, 0xffff_ffff, ws[j]);
    }
  }
}
