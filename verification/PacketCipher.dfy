/** The byte-swap and xor cipher of the packets, on a stretch of a buffer. */
module PacketCipher {
  type Bytes = seq<bv8>

  const KEY_LENGTH := 8

  // ---- the swapping pass

  // One block: the bytes at offsets `k` and `er - 1 - k` change places.
  function SwapPair(block: Bytes, k: nat): (r: Bytes)
    requires k < |block|
    ensures |r| == |block|
  {
    block[k := block[|block| - 1 - k]][|block| - 1 - k := block[k]]
  }

  // The offset moves on from block to block and wraps past the middle.
  function NextOffset(er: nat, k: nat): nat {
    if k + 1 > er / 2 then 0 else k + 1
  }

  // Blocks of `er` bytes are swapped in turn; a shorter rest stays as it is.
  function Swapped(data: Bytes, er: nat, k: nat): (r: Bytes)
    requires er > 1 && k <= er / 2
    ensures |r| == |data|
  {
    if |data| < er then data
    else SwapPair(data[..er], k) + Swapped(data[er..], er, NextOffset(er, k))
  }

  lemma SwapPairTwice(block: Bytes, k: nat)
    requires k < |block|
    ensures SwapPair(SwapPair(block, k), k) == block
    ensures multiset(SwapPair(block, k)) == multiset(block)
  {
    var j := |block| - 1 - k;
    var r := SwapPair(block, k);
    assert SwapPair(r, k) == block;
    assert multiset(block[k := block[j]]) == multiset(block) - multiset{block[k]} + multiset{block[j]};
  }

  /** The swapping pass is its own inverse. */
  lemma {:induction false} SwappedTwice(data: Bytes, er: nat, k: nat)
    requires er > 1 && k <= er / 2
    ensures Swapped(Swapped(data, er, k), er, k) == data
  {
    hide SwapPair;
    if |data| >= er {
      var head, tail := SwapPair(data[..er], k), Swapped(data[er..], er, NextOffset(er, k));
      assert (head + tail)[..er] == head && (head + tail)[er..] == tail;
      SwapPairTwice(data[..er], k);
      SwappedTwice(data[er..], er, NextOffset(er, k));
      assert data == data[..er] + data[er..];
    }
  }

  // Block by block of `er` bytes the two hold the same bytes; a shorter rest is the same.
  ghost predicate BlocksPermuted(data: Bytes, result: Bytes, er: nat)
    requires er > 0
  {
    if |data| < er then result == data
    else
      && |result| == |data| && multiset(result[..er]) == multiset(data[..er])
      && BlocksPermuted(data[er..], result[er..], er)
  }

  /** It only moves bytes about, each within its own block. */
  lemma {:induction false} SwappedPermutes(data: Bytes, er: nat, k: nat)
    requires er > 1 && k <= er / 2
    ensures BlocksPermuted(data, Swapped(data, er, k), er)
  {
    if |data| >= er {
      var head, tail := SwapPair(data[..er], k), Swapped(data[er..], er, NextOffset(er, k));
      assert (head + tail)[..er] == head && (head + tail)[er..] == tail;
      SwapPairTwice(data[..er], k);
      SwappedPermutes(data[er..], er, NextOffset(er, k));
    }
  }

  // The two assignments of one turn, seen on the whole buffer.
  lemma SwapWithin(pre: Bytes, block: Bytes, post: Bytes, k: nat)
    requires k < |block|
    ensures var s, p, er := pre + block + post, |pre|, |block|;
            s[p + k := s[p + (er - 1 - k)]][p + (er - 1 - k) := s[p + k]] == pre + SwapPair(block, k) + post
  {
  }

  // the three assignments of one turn
  method Exchange(data: array<bv8>, i: nat, j: nat)
    requires i < data.Length && j < data.Length
    modifies data
    ensures data[..] == old(data[..])[i := old(data[..])[j]][j := old(data[..])[i]]
  {
    var b := data[i];
    data[i] := data[j];
    data[j] := b;
  }

  // Encrypt_byte_change_A on data[off .. off + size]
  method EncryptByteChangeA(er: nat, data: array<bv8>, off: nat, size: nat) returns (r: int)
    requires er > 1 && er % 2 == 0 && off + size <= data.Length
    modifies data
    ensures data[..] == old(data[..off]) + Swapped(old(data[off..off + size]), er, 0) + old(data[off + size..])
    ensures r == size
  {
    hide Swapped, SwapPair, Midway;
    var num := 0;
    var num3 := 0;
    ghost var pre, post := data[..off], data[off + size..];
    ghost var done: Bytes, rest := [], data[off..off + size];
    ghost var result := Swapped(rest, er, 0);
    MidwayFirst(data[..], pre, rest, post, er);
    while num + er <= size
      invariant 0 <= num <= size && 0 <= num3 <= er / 2 && |done| == num && |rest| == size - num
      invariant Midway(data[..], pre, done, rest, post, er, num3, result)
      decreases size - num
    {
      var num4 := num + num3;
      var num5 := num + (er - 1 - num3);
      MidwayNext(data[..], pre, done, rest, post, er, num3, result, off + num4, off + num5);
      Exchange(data, off + num4, off + num5);
      done, rest := done + SwapPair(rest[..er], num3), rest[er..];
      num := num + er;
      num3 := num3 + 1;
      if num3 > er / 2 {
        num3 := 0;
      }
    }
    MidwayLast(data[..], pre, done, rest, post, er, num3, result);
    var num2 := er - (num + er - size);
    r := num + num2;
  }

  // The buffer has its first blocks swapped, and the rest is to come to `result`.
  ghost predicate Midway(s: Bytes, pre: Bytes, done: Bytes, rest: Bytes, post: Bytes, er: nat, k: nat, result: Bytes)
    requires er > 1 && k <= er / 2
  {
    s == (pre + done) + rest + post && result == done + Swapped(rest, er, k)
  }

  lemma MidwayFirst(s: Bytes, pre: Bytes, rest: Bytes, post: Bytes, er: nat)
    requires er > 1 && s == pre + rest + post
    ensures Midway(s, pre, [], rest, post, er, 0, Swapped(rest, er, 0))
  {
    hide Swapped;
    assert pre + [] == pre && [] + Swapped(rest, er, 0) == Swapped(rest, er, 0);
  }

  lemma MidwayNext(s: Bytes, pre: Bytes, done: Bytes, rest: Bytes, post: Bytes, er: nat, k: nat, result: Bytes,
                   i: nat, j: nat)
    requires 1 < er <= |rest| && k <= er / 2 && Midway(s, pre, done, rest, post, er, k, result)
    requires i == |pre| + |done| + k && j == |pre| + |done| + (er - 1 - k)
    ensures i < |s| && j < |s|
    ensures Midway(s[i := s[j]][j := s[i]], pre, done + SwapPair(rest[..er], k), rest[er..], post,
                   er, NextOffset(er, k), result)
  {
    hide Swapped, SwapPair;
    SwapOnce(pre, done, rest, post, er, k);
    SwapHead(done, rest, er, k);
  }

  lemma MidwayLast(s: Bytes, pre: Bytes, done: Bytes, rest: Bytes, post: Bytes, er: nat, k: nat, result: Bytes)
    requires er > 1 && k <= er / 2 && |rest| < er && Midway(s, pre, done, rest, post, er, k, result)
    ensures s == pre + result + post
  {
    hide Swapped;
    NoBlockLeft(rest, er, k);
    Regroup(pre, done, rest, post);
  }

  lemma NoBlockLeft(rest: Bytes, er: nat, k: nat)
    requires er > 1 && k <= er / 2 && |rest| < er
    ensures Swapped(rest, er, k) == rest
  {
  }

  lemma Regroup(a: Bytes, b: Bytes, c: Bytes, d: Bytes)
    ensures (a + b) + c + d == a + (b + c) + d
  {
  }

  lemma SwapOnce(pre: Bytes, done: Bytes, rest: Bytes, post: Bytes, er: nat, k: nat)
    requires 1 < er <= |rest| && k <= er / 2
    ensures var s, p := (pre + done) + rest + post, |pre| + |done|;
            s[p + k := s[p + (er - 1 - k)]][p + (er - 1 - k) := s[p + k]]
              == (pre + (done + SwapPair(rest[..er], k))) + rest[er..] + post
  {
    hide *;
    var block, tail := rest[..er], rest[er..];
    assert (pre + done) + rest + post == (pre + done) + block + (tail + post) by {
      assert rest == block + tail;
      Regroup4(pre + done, block, tail, post);
    }
    SwapWithin(pre + done, block, tail + post, k);
    Regroup5(pre, done, SwapPair(block, k), tail, post);
  }

  lemma SwapHead(done: Bytes, rest: Bytes, er: nat, k: nat)
    requires 1 < er <= |rest| && k <= er / 2
    ensures done + Swapped(rest, er, k) == done + SwapPair(rest[..er], k) + Swapped(rest[er..], er, NextOffset(er, k))
  {
  }

  lemma Regroup4(a: Bytes, b: Bytes, c: Bytes, d: Bytes)
    ensures a + (b + c) + d == a + b + (c + d)
  {
  }

  lemma Regroup5(a: Bytes, b: Bytes, c: Bytes, d: Bytes, e: Bytes)
    ensures (a + b) + c + (d + e) == (a + (b + c)) + d + e
  {
  }

  // ---- the xor pass

  function Xored(data: Bytes, key: Bytes): (r: Bytes)
    requires |key| == KEY_LENGTH
    ensures |r| == |data|
  {
    seq(|data|, i requires 0 <= i < |data| => data[i] ^ key[i % KEY_LENGTH])
  }

  lemma XorTwice(x: bv8, y: bv8)
    ensures (x ^ y) ^ y == x
  {
  }

  /** So is the xor pass. */
  lemma XoredTwice(data: Bytes, key: Bytes)
    requires |key| == KEY_LENGTH
    ensures Xored(Xored(data, key), key) == data
  {
    forall i | 0 <= i < |data|
      ensures Xored(Xored(data, key), key)[i] == data[i]
    {
      XorTwice(data[i], key[i % KEY_LENGTH]);
    }
  }

  method XorData(buffer: array<bv8>, off: nat, key: Bytes, size: nat) returns (r: int)
    requires |key| == KEY_LENGTH && off + size <= buffer.Length
    modifies buffer
    ensures buffer[..] == old(buffer[..off]) + Xored(old(buffer[off..off + size]), key) + old(buffer[off + size..])
    ensures forall i | 0 <= i < size :: buffer[off + i] == old(buffer[off + i]) ^ key[i % 8]
    ensures forall i | 0 <= i < buffer.Length && !(off <= i < off + size) :: buffer[i] == old(buffer[i])
    ensures r == size
  {
    hide Xored;
    for i := 0 to size
      invariant forall k | 0 <= k < i :: buffer[off + k] == old(buffer[off + k]) ^ key[k % KEY_LENGTH]
      invariant forall k | 0 <= k < buffer.Length && !(off <= k < off + i) :: buffer[k] == old(buffer[k])
    {
      buffer[off + i] := buffer[off + i] ^ key[i % KEY_LENGTH];
    }
    XoredIs(old(buffer[..]), buffer[..], off, key, size);
    Slices(buffer, off, size);
    r := size;
  }

  lemma XoredIs(before: Bytes, after: Bytes, off: nat, key: Bytes, size: nat)
    requires |key| == KEY_LENGTH && |before| == |after| && off + size <= |before|
    requires forall i | 0 <= i < size :: after[off + i] == before[off + i] ^ key[i % KEY_LENGTH]
    requires forall i | 0 <= i < |before| && !(off <= i < off + size) :: after[i] == before[i]
    ensures after == before[..off] + Xored(before[off..off + size], key) + before[off + size..]
  {
    var x := Xored(before[off..off + size], key);
    forall i | 0 <= i < |after|
      ensures after[i] == (before[..off] + x + before[off + size..])[i]
    {
      if off <= i < off + size {
        assert after[off + (i - off)] == before[off + (i - off)] ^ key[(i - off) % KEY_LENGTH];
      }
    }
  }

  // ---- both passes

  // The block size depends on the length; it is even and between 8 and 16.
  function BlockSize(size: nat): (er: nat)
    ensures 8 <= er <= 16 && er % 2 == 0
  {
    size % (KEY_LENGTH / 2 + 1) * 2 + KEY_LENGTH
  }

  function Encrypted(data: Bytes, key: Bytes): (r: Bytes)
    requires |key| == KEY_LENGTH
    ensures |r| == |data|
  {
    Swapped(Xored(data, key), BlockSize(|data|), 0)
  }

  function Decrypted(data: Bytes, key: Bytes): (r: Bytes)
    requires |key| == KEY_LENGTH
    ensures |r| == |data|
  {
    Xored(Swapped(data, BlockSize(|data|), 0), key)
  }

  /** Decryption undoes encryption, and encryption decryption, for every key and length. */
  lemma CipherRoundTrip(data: Bytes, key: Bytes)
    requires |key| == KEY_LENGTH
    ensures Decrypted(Encrypted(data, key), key) == data
    ensures Encrypted(Decrypted(data, key), key) == data
  {
    var er := BlockSize(|data|);
    SwappedTwice(Xored(data, key), er, 0);
    XoredTwice(data, key);
    XoredTwice(Swapped(data, er, 0), key);
    SwappedTwice(data, er, 0);
  }

  // ---- where each byte comes from

  // Blocks of `er` bytes: in block `b` the two bytes at offset (k + b) modulo er / 2 + 1 from either end
  // have changed places; what is left behind the last whole block is where it was.
  function From(size: nat, er: nat, k: nat, j: nat): (s: nat)
    requires er > 1 && j < size
    ensures s < size
  {
    InBlock(er, j);
    Place(size, er, (j / er) * er, j % er, (k + j / er) % (er / 2 + 1))
  }

  // The same for offset `p` of the block that begins at `start` and has `c` and its mirror changed.
  function Place(size: nat, er: nat, start: nat, p: nat, c: nat): (s: nat)
    requires p < er && start + p < size && c <= er / 2 < er
    ensures s < size
  {
    if start + er > size then start + p
    else start + if p == c then er - 1 - c else if p == er - 1 - c then c else p
  }

  lemma InBlock(er: nat, j: nat)
    requires er > 1
    ensures j == (j / er) * er + j % er && 0 <= j % er < er && 0 <= (j / er) * er
  {
  }

  lemma NextBlock(size: nat, er: nat, k: nat, j: nat)
    requires er > 1 && k <= er / 2 && er <= j < size
    ensures From(size, er, k, j) == er + From(size - er, er, NextOffset(er, k), j - er)
  {
    hide Place;
    InBlock(er, j);
    InBlock(er, j - er);
    OneLess(j, er);
    Turns(k, j / er, er / 2 + 1);
    var start, next := (j / er) * er, ((j - er) / er) * er;
    assert next == start - er;
    PlaceShifted(size, er, start, j % er, (k + j / er) % (er / 2 + 1));
  }

  lemma PlaceShifted(size: nat, er: nat, start: nat, p: nat, c: nat)
    requires p < er <= start && start + p < size && c <= er / 2 < er
    ensures Place(size, er, start, p, c) == er + Place(size - er, er, start - er, p, c)
  {
  }

  lemma OneLess(j: nat, er: nat)
    requires 1 < er <= j
    ensures (j - er) / er == j / er - 1 && (j - er) % er == j % er
  {
    var q, r := j / er, j % er;
    assert j == q * er + r;
    assert (q - 1) * er == q * er - er;
    QuotientIs(j - er, er, q - 1, r);
  }

  // Division with remainder has one result.
  lemma QuotientIs(a: int, d: int, q: int, r: int)
    requires d > 0 && a == q * d + r && 0 <= r < d
    ensures a / d == q && a % d == r
  {
    assert a == (a / d) * d + a % d && 0 <= a % d < d;
    assert (q + 1) * d == q * d + d && (a / d + 1) * d == (a / d) * d + d;
  }

  lemma Turns(k: nat, b: nat, m: nat)
    requires k < m && b > 0
    ensures (k + b) % m == ((if k + 1 == m then 0 else k + 1) + (b - 1)) % m
  {
    if k + 1 == m {
      OnceAround(b - 1, m);
    }
  }

  lemma OnceAround(x: nat, m: nat)
    requires m > 0
    ensures (x + m) % m == x % m
  {
    assert x == (x / m) * m + x % m;
    assert (x / m + 1) * m == (x / m) * m + m;
    QuotientIs(x + m, m, x / m + 1, x % m);
  }

  lemma FirstBlock(size: nat, er: nat, k: nat, j: nat)
    requires er > 1 && k <= er / 2 && j < er && j < size
    ensures From(size, er, k, j)
         == if er > size then j else if j == k then er - 1 - k else if j == er - 1 - k then k else j
  {
    QuotientIs(j, er, 0, j);
    QuotientIs(k, er / 2 + 1, 0, k);
  }

  lemma {:induction false} SwappedAt(data: Bytes, er: nat, k: nat, j: nat)
    requires er > 1 && k <= er / 2 && j < |data|
    ensures Swapped(data, er, k)[j] == data[From(|data|, er, k, j)]
    decreases |data|
  {
    hide From;
    if j < er {
      FirstBlock(|data|, er, k, j);
    } else {
      NextBlock(|data|, er, k, j);
      SwappedAt(data[er..], er, NextOffset(er, k), j - er);
    }
  }

  // Where the byte at `j` of an encrypted or decrypted stretch of this size comes from.
  function Source(size: nat, j: nat): (s: nat)
    requires j < size
    ensures s < size
  {
    From(size, 8 + 2 * (size % 5), 0, j)
  }

  /** Each encrypted byte is the byte from its source, xored with the key byte of the source's place. */
  lemma EncryptedAt(data: Bytes, key: Bytes, j: nat)
    requires |key| == KEY_LENGTH && j < |data|
    ensures var s := Source(|data|, j); Encrypted(data, key)[j] == data[s] ^ key[s % 8]
  {
    hide From, Swapped;
    SwappedAt(Xored(data, key), BlockSize(|data|), 0, j);
  }

  /** Each decrypted byte is the byte from its source, xored with the key byte of its own place. */
  lemma DecryptedAt(data: Bytes, key: Bytes, j: nat)
    requires |key| == KEY_LENGTH && j < |data|
    ensures Decrypted(data, key)[j] == data[Source(|data|, j)] ^ key[j % 8]
  {
    hide From, Swapped;
    SwappedAt(data, BlockSize(|data|), 0, j);
  }

  // What is before and after the stretch stays.
  lemma Stretch(a: Bytes, b: Bytes, c: Bytes, off: nat, size: nat)
    requires |a| == off && |b| == size
    ensures (a + b + c)[..off] == a && (a + b + c)[off..off + size] == b && (a + b + c)[off + size..] == c
  {
  }

  method EncryptData(buffer: array<bv8>, off: nat, key: Bytes, size: nat) returns (r: int)
    requires |key| == KEY_LENGTH && off + size <= buffer.Length
    modifies buffer
    ensures buffer[..] == old(buffer[..off]) + Encrypted(old(buffer[off..off + size]), key) + old(buffer[off + size..])
    ensures forall j | 0 <= j < size :: buffer[off + j] == old(buffer[off + Source(size, j)]) ^ key[Source(size, j) % 8]
    ensures r == size
  {
    hide Swapped, Xored;
    ghost var a, x, c := buffer[..off], Xored(buffer[off..off + size], key), buffer[off + size..];
    var er := size % (KEY_LENGTH / 2 + 1) * 2 + KEY_LENGTH;
    var size2 := XorData(buffer, off, key, size);
    Stretch(a, x, c, off, size);
    Slices(buffer, off, size);
    assert buffer[..off] == a && buffer[off..off + size] == x && buffer[off + size..] == c;
    r := EncryptByteChangeA(er, buffer, off, size2);
    BytesEncrypted(old(buffer[..]), buffer[..], off, key, size);
  }

  lemma BytesEncrypted(before: Bytes, after: Bytes, off: nat, key: Bytes, size: nat)
    requires |key| == KEY_LENGTH && off + size <= |before|
    requires after == before[..off] + Encrypted(before[off..off + size], key) + before[off + size..]
    ensures forall j | 0 <= j < size ::
              after[off + j] == before[off + Source(size, j)] ^ key[Source(size, j) % 8]
  {
    hide Encrypted, Source;
    forall j | 0 <= j < size
      ensures after[off + j] == before[off + Source(size, j)] ^ key[Source(size, j) % 8]
    {
      EncryptedAt(before[off..off + size], key, j);
    }
  }

  lemma BytesDecrypted(before: Bytes, after: Bytes, off: nat, key: Bytes, size: nat)
    requires |key| == KEY_LENGTH && off + size <= |before|
    requires after == before[..off] + Decrypted(before[off..off + size], key) + before[off + size..]
    ensures forall j | 0 <= j < size :: after[off + j] == before[off + Source(size, j)] ^ key[j % 8]
  {
    hide Decrypted, Source;
    forall j | 0 <= j < size
      ensures after[off + j] == before[off + Source(size, j)] ^ key[j % 8]
    {
      DecryptedAt(before[off..off + size], key, j);
    }
  }

  method DecryptData(buffer: array<bv8>, off: nat, key: Bytes, size: nat) returns (r: int)
    requires |key| == KEY_LENGTH && off + size <= buffer.Length
    modifies buffer
    ensures buffer[..] == old(buffer[..off]) + Decrypted(old(buffer[off..off + size]), key) + old(buffer[off + size..])
    ensures forall j | 0 <= j < size :: buffer[off + j] == old(buffer[off + Source(size, j)]) ^ key[j % 8]
    ensures r == size
  {
    hide Swapped, Xored;
    var er := size % (KEY_LENGTH / 2 + 1) * 2 + KEY_LENGTH;
    ghost var a, x, c := buffer[..off], Swapped(buffer[off..off + size], er, 0), buffer[off + size..];
    var size2 := EncryptByteChangeA(er, buffer, off, size);
    Stretch(a, x, c, off, size);
    Slices(buffer, off, size);
    assert buffer[..off] == a && buffer[off..off + size] == x && buffer[off + size..] == c;
    r := XorData(buffer, off, key, size2);
    BytesDecrypted(old(buffer[..]), buffer[..], off, key, size);
  }

  lemma Slices(a: array<bv8>, off: nat, size: nat)
    requires off + size <= a.Length
    ensures a[..][..off] == a[..off] && a[..][off..off + size] == a[off..off + size]
        && a[..][off + size..] == a[off + size..]
  {
  }
}
