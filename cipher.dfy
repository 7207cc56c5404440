/**
 * The framing around the AES block cipher in `encrypt_data` and
 * `decrypt_data`: PKCS#7 padding (section 6.3 of RFC 5652), a block loop
 * that encrypts every 16-byte block on its own (electronic code book), a
 * 16-byte IV written in front of the ciphertext but never fed to the cipher,
 * and hex text outside. The cipher itself is a pair of functions on blocks;
 * the round trip holds whenever decryption inverts encryption.
 */
module Cipher {
  import opened Wrappers
  import opened Hex

  const BlockSize := 16

  type Block = s: seq<byte> | |s| == 16 witness seq(16, _ => 0)

  /** AES-256 under one derived key: block encryption and block decryption. */
  datatype BlockCipher = BlockCipher(enc: Block -> Block, dec: Block -> Block)

  ghost predicate Inverts(c: BlockCipher) {
    forall b: Block :: c.dec(c.enc(b)) == b
  }

  /** UTF-8 conversion between Rust strings and their bytes (`as_bytes`, `String::from_utf8`). */
  datatype Utf8 = Utf8(encode: string -> seq<byte>, decode: seq<byte> -> Option<string>)

  ghost predicate RoundTrips(u: Utf8) {
    forall s: string :: u.decode(u.encode(s)) == Some(s)
  }

  datatype DecryptError =
    | BadHex(e: HexError)
    | TooShort            // fewer than 16 bytes, so no IV
    | PartialBlockPanic   // `copy_from_slice` panics on a final chunk shorter than a block
    | BadUtf8

  /** `16 - (len % 16)`: the number of padding bytes for a plaintext of `len` bytes. */
  function PaddingSize(len: nat): (p: nat)
    ensures 1 <= p <= BlockSize
    ensures (len + p) % BlockSize == 0
  {
    BlockSize - len % BlockSize
  }

  /** The plaintext followed by `p` copies of the byte `p`. */
  function Pad(data: seq<byte>): (r: seq<byte>)
    ensures |r| % BlockSize == 0 && |data| < |r| <= |data| + BlockSize
    ensures r[..|data|] == data
    ensures forall i :: |data| <= i < |r| ==> r[i] == |r| - |data|
  {
    var p := PaddingSize(|data|);
    data + seq(p, _ => p)
  }

  /** Drops as many bytes as the last byte says when that is 1 to 16; the other padding bytes are not looked at. */
  function Unpad(buffer: seq<byte>): (r: seq<byte>)
    requires |buffer| % BlockSize == 0
    ensures |buffer| > 0 && 0 < buffer[|buffer| - 1] <= BlockSize ==> r == buffer[..|buffer| - buffer[|buffer| - 1]]
    ensures !(|buffer| > 0 && 0 < buffer[|buffer| - 1] <= BlockSize) ==> r == buffer
  {
    var p := if buffer == [] then 0 else buffer[|buffer| - 1];
    if 0 < p <= BlockSize then buffer[..|buffer| - p] else buffer
  }

  lemma UnpadPad(data: seq<byte>)
    ensures Unpad(Pad(data)) == data
  {
    var r := Pad(data);
    assert r[|r| - 1] == |r| - |data|;
  }

  /** PKCS#7 requires every padding byte to hold the padding length; this one is cut off all the same. */
  lemma UnpadIgnoresOtherPaddingBytes()
    ensures var buffer := seq(15, _ => 65) + [2];
            Unpad(buffer) == seq(14, _ => 65) && buffer[14] != 2
  {
  }

  /** A block function applied to every 16-byte block independently, as the `chunks_mut(16)` loops do. */
  function MapBlocks(f: Block -> Block, s: seq<byte>): (r: seq<byte>)
    requires |s| % BlockSize == 0
    ensures |r| == |s|
    decreases |s|
  {
    if s == [] then [] else f(s[..BlockSize]) + MapBlocks(f, s[BlockSize..])
  }

  lemma {:induction false} MapBlocksAppend(f: Block -> Block, a: seq<byte>, b: seq<byte>)
    requires |a| % BlockSize == 0 && |b| % BlockSize == 0
    ensures MapBlocks(f, a + b) == MapBlocks(f, a) + MapBlocks(f, b)
    decreases |a|
  {
    if a == [] {
      assert a + b == b;
    } else {
      assert (a + b)[..BlockSize] == a[..BlockSize];
      assert (a + b)[BlockSize..] == a[BlockSize..] + b;
      MapBlocksAppend(f, a[BlockSize..], b);
    }
  }

  /** Block `k` of the output depends on block `k` of the input alone. */
  lemma {:induction false} MapBlocksAt(f: Block -> Block, s: seq<byte>, k: nat)
    requires |s| % BlockSize == 0 && BlockSize * k + BlockSize <= |s|
    ensures MapBlocks(f, s)[BlockSize * k..BlockSize * k + BlockSize] == f(s[BlockSize * k..BlockSize * k + BlockSize])
    decreases k
  {
    if k > 0 {
      MapBlocksAt(f, s[BlockSize..], k - 1);
      assert s[BlockSize..][BlockSize * (k - 1)..BlockSize * (k - 1) + BlockSize]
          == s[BlockSize * k..BlockSize * k + BlockSize];
    }
  }

  lemma {:induction false} MapBlocksInverse(c: BlockCipher, s: seq<byte>)
    requires Inverts(c) && |s| % BlockSize == 0
    ensures MapBlocks(c.dec, MapBlocks(c.enc, s)) == s
    decreases |s|
  {
    if s != [] {
      var e := MapBlocks(c.enc, s);
      var blk: Block := s[..BlockSize];
      assert e[..BlockSize] == c.enc(blk);
      assert e[BlockSize..] == MapBlocks(c.enc, s[BlockSize..]);
      MapBlocksInverse(c, s[BlockSize..]);
      assert s == s[..BlockSize] + s[BlockSize..];
    }
  }

  /** Electronic code book: two equal plaintext blocks give two equal ciphertext blocks. */
  lemma EqualBlocksEncryptEqually(c: BlockCipher, s: seq<byte>, i: nat, j: nat)
    requires |s| % BlockSize == 0 && BlockSize * i + BlockSize <= |s| && BlockSize * j + BlockSize <= |s|
    requires s[BlockSize * i..BlockSize * i + BlockSize] == s[BlockSize * j..BlockSize * j + BlockSize]
    ensures var e := MapBlocks(c.enc, s);
            e[BlockSize * i..BlockSize * i + BlockSize] == e[BlockSize * j..BlockSize * j + BlockSize]
  {
    MapBlocksAt(c.enc, s, i);
    MapBlocksAt(c.enc, s, j);
  }

  /** `chunk.copy_from_slice(&block)`: block `block` written over bytes `i` to `i + 16`. */
  method WriteBlock(buffer: array<byte>, i: nat, block: Block)
    requires i + BlockSize <= buffer.Length
    modifies buffer
    ensures buffer[..] == old(buffer[..i]) + block + old(buffer[i + BlockSize..])
  {
    forall j | 0 <= j < BlockSize {
      buffer[i + j] := block[j];
    }
    assert buffer[..] == old(buffer[..i]) + block + old(buffer[i + BlockSize..]);
  }

  /** One more block done: the transformed prefix grows by the transformed block. */
  lemma MapBlocksStep(f: Block -> Block, input: seq<byte>, i: nat)
    requires i % BlockSize == 0 && |input| % BlockSize == 0 && i + BlockSize <= |input|
    ensures MapBlocks(f, input[..i + BlockSize]) == MapBlocks(f, input[..i]) + f(input[i..i + BlockSize])
  {
    var one := input[i..i + BlockSize];
    MapBlocksAppend(f, input[..i], one);
    assert input[..i + BlockSize] == input[..i] + one;
    assert one[..BlockSize] == one && one[BlockSize..] == [];
  }

  /** The chunk loop: every block of `buffer` is replaced by `f` of itself, in place. */
  method TransformBlocks(f: Block -> Block, buffer: array<byte>)
    requires buffer.Length % BlockSize == 0
    modifies buffer
    ensures buffer[..] == MapBlocks(f, old(buffer[..]))
  {
    ghost var input := buffer[..];
    var i := 0;
    while i < buffer.Length
      invariant 0 <= i <= buffer.Length && i % BlockSize == 0
      invariant buffer[..] == MapBlocks(f, input[..i]) + input[i..]
    {
      var chunk: Block := buffer[i..i + BlockSize];
      assert chunk == input[i..i + BlockSize];
      WriteBlock(buffer, i, f(chunk));
      MapBlocksStep(f, input, i);
      i := i + BlockSize;
    }
    assert input[..i] == input;
  }

  /** The bytes `encrypt_data` hex-encodes: the IV, then the padded plaintext encrypted block by block. */
  function Sealed(c: BlockCipher, iv: Block, data: seq<byte>): (r: seq<byte>)
    ensures |r| % BlockSize == 0 && |r| > BlockSize + |data|
    ensures r[..BlockSize] == iv
  {
    iv + MapBlocks(c.enc, Pad(data))
  }

  /** The ciphertext after the IV does not depend on the IV. */
  lemma {:induction false} CiphertextIgnoresIv(c: BlockCipher, iv1: Block, iv2: Block, data: seq<byte>)
    ensures Sealed(c, iv1, data)[BlockSize..] == Sealed(c, iv2, data)[BlockSize..]
  {
    assert Sealed(c, iv1, data)[BlockSize..] == MapBlocks(c.enc, Pad(data));
    assert Sealed(c, iv2, data)[BlockSize..] == MapBlocks(c.enc, Pad(data));
  }

  /** What `decrypt_data` makes of hex-decoded bytes: skip the IV, decrypt the blocks, unpad. */
  function Opened(c: BlockCipher, bytes: seq<byte>): (r: Result<seq<byte>, DecryptError>)
    ensures |bytes| < BlockSize <==> r == Err(TooShort)
    ensures r.Ok? <==> |bytes| >= BlockSize && (|bytes| - BlockSize) % BlockSize == 0
    ensures r.Ok? ==> |r.value| <= |bytes| - BlockSize
  {
    if |bytes| < BlockSize then Err(TooShort)
    else if (|bytes| - BlockSize) % BlockSize != 0 then Err(PartialBlockPanic)
    else Ok(Unpad(MapBlocks(c.dec, bytes[BlockSize..])))
  }

  lemma OpenedSealed(c: BlockCipher, iv: Block, data: seq<byte>)
    requires Inverts(c)
    ensures Opened(c, Sealed(c, iv, data)) == Ok(data)
  {
    assert Sealed(c, iv, data)[BlockSize..] == MapBlocks(c.enc, Pad(data));
    MapBlocksInverse(c, Pad(data));
    UnpadPad(data);
  }

  /** The stored text for a password: the hex of `Sealed`. */
  function EncryptedText(c: BlockCipher, u: Utf8, iv: Block, data: string): (r: string)
    ensures Hex.Decode(r) == Ok(Sealed(c, iv, u.encode(data)))
  {
    Hex.DecodeEncode(Sealed(c, iv, u.encode(data)));
    Hex.Encode(Sealed(c, iv, u.encode(data)))
  }

  /** The whole of `decrypt_data`, as a function of its input text. */
  function Decrypted(c: BlockCipher, u: Utf8, encrypted: string): (r: Result<string, DecryptError>)
    ensures Hex.Decode(encrypted).Err? ==> r == Err(BadHex(Hex.Decode(encrypted).error))
    ensures Hex.Decode(encrypted).Ok? && Opened(c, Hex.Decode(encrypted).value).Err? ==>
      r == Err(Opened(c, Hex.Decode(encrypted).value).error)
    ensures r.Ok? <==>
              Hex.Decode(encrypted).Ok? && Opened(c, Hex.Decode(encrypted).value).Ok?
              && u.decode(Opened(c, Hex.Decode(encrypted).value).value).Some?
    ensures (Hex.Decode(encrypted).Ok? && Opened(c, Hex.Decode(encrypted).value).Ok?
             && u.decode(Opened(c, Hex.Decode(encrypted).value).value).None?) ==>
      r == Err(BadUtf8)
    ensures r.Ok? ==> u.decode(Opened(c, Hex.Decode(encrypted).value).value) == Some(r.value)
  {
    match Hex.Decode(encrypted)
    case Err(e) => Err(BadHex(e))
    case Ok(bytes) =>
      match Opened(c, bytes)
      case Err(e) => Err(e)
      case Ok(plain) =>
        match u.decode(plain)
        case None => Err(BadUtf8)
        case Some(s) => Ok(s)
  }

  /** Decrypting with the cipher that encrypted gives the plaintext back, whatever the IV. */
  lemma DecryptedEncrypted(c: BlockCipher, u: Utf8, iv: Block, data: string)
    requires Inverts(c) && RoundTrips(u)
    ensures Decrypted(c, u, EncryptedText(c, u, iv, data)) == Ok(data)
  {
    Hex.DecodeEncode(Sealed(c, iv, u.encode(data)));
    OpenedSealed(c, iv, u.encode(data));
  }

  /** `encrypt_data`: pad, encrypt the blocks in place, put the IV in front, hex-encode. */
  method EncryptData(c: BlockCipher, u: Utf8, iv: Block, data: string) returns (r: string)
    ensures r == EncryptedText(c, u, iv, data)
  {
    var padded := Pad(u.encode(data));
    var buffer := new byte[|padded|](i requires 0 <= i < |padded| => padded[i]);
    assert buffer[..] == padded;
    TransformBlocks(c.enc, buffer);
    r := Hex.Encode(iv + buffer[..]);
  }

  /** `decrypt_data`: hex-decode, check the length, decrypt the blocks in place, unpad, read UTF-8. */
  method DecryptData(c: BlockCipher, u: Utf8, encrypted: string) returns (r: Result<string, DecryptError>)
    ensures r == Decrypted(c, u, encrypted)
  {
    var decoded := Hex.Decode(encrypted);
    if decoded.Err? {
      return Err(BadHex(decoded.error));
    }
    var bytes := decoded.value;
    if |bytes| < BlockSize {
      return Err(TooShort);
    }
    var ciphertext := bytes[BlockSize..];
    if |ciphertext| % BlockSize != 0 {
      return Err(PartialBlockPanic);
    }
    var buffer := new byte[|ciphertext|](i requires 0 <= i < |ciphertext| => ciphertext[i]);
    assert buffer[..] == ciphertext;
    TransformBlocks(c.dec, buffer);
    var plain := Unpad(buffer[..]);
    var text := u.decode(plain);
    if text.None? {
      return Err(BadUtf8);
    }
    r := Ok(text.value);
  }
}
