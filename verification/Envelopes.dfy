/** CBC chaining (section 6.2 of NIST SP 800-38A) over an abstract block cipher, and padding. */
module Cbc {
  import opened Base64

  const BLOCK := 16

  type Block = b: Bytes | |b| == BLOCK witness seq(BLOCK, _ => 0)

  /** A keyed block cipher. */
  datatype Cipher = Cipher(enc: (Bytes, Block) -> Block, dec: (Bytes, Block) -> Block)

  /** For every key, `enc` and `dec` are inverse permutations of the blocks. */
  ghost predicate IsPermutation(c: Cipher) {
    && (forall k, b :: c.dec(k, c.enc(k, b)) == b)
    && (forall k, b :: c.enc(k, c.dec(k, b)) == b)
  }

  function XorBits(a: nat, b: nat, bits: nat): (r: nat) {
    if bits == 0 then 0
    else (if a % 2 == b % 2 then 0 else 1) + 2 * XorBits(a / 2, b / 2, bits - 1)
  }

  lemma {:induction false} XorBitsTwice(a: nat, b: nat, bits: nat, top: nat)
    requires top == Power2(bits) && a < top
    ensures XorBits(a, b, bits) < top && XorBits(XorBits(a, b, bits), b, bits) == a
  {
    if bits > 0 {
      XorBitsTwice(a / 2, b / 2, bits - 1, Power2(bits - 1));
      var half := XorBits(a / 2, b / 2, bits - 1);
      var x := XorBits(a, b, bits);
      assert x / 2 == half && x % 2 == if a % 2 == b % 2 then 0 else 1;
    }
  }

  predicate Bit(n: nat, k: nat) {
    if k == 0 then n % 2 == 1 else Bit(n / 2, k - 1)
  }

  /** Bit by bit it is the exclusive or. */
  lemma {:induction false} XorIsBitwise(a: nat, b: nat, bits: nat, k: nat)
    requires k < bits
    ensures Bit(XorBits(a, b, bits), k) <==> Bit(a, k) != Bit(b, k)
  {
    var x := XorBits(a, b, bits);
    assert x / 2 == XorBits(a / 2, b / 2, bits - 1) && x % 2 == if a % 2 == b % 2 then 0 else 1;
    if k > 0 {
      XorIsBitwise(a / 2, b / 2, bits - 1, k - 1);
    }
  }

  function Power2(n: nat): nat {
    if n == 0 then 1 else 2 * Power2(n - 1)
  }

  lemma Power8()
    ensures Power2(8) == 256
  {
    assert Power2(4) == 16;
  }

  function XorByte(a: Byte, b: Byte): Byte {
    Power8();
    XorBitsTwice(a, b, 8, 256);
    XorBits(a, b, 8)
  }

  function Xor(a: Block, b: Block): Block {
    seq(BLOCK, i requires 0 <= i < BLOCK => XorByte(a[i], b[i]))
  }

  lemma XorTwice(a: Block, b: Block)
    ensures Xor(Xor(a, b), b) == a
  {
    Power8();
    forall i | 0 <= i < BLOCK ensures Xor(Xor(a, b), b)[i] == a[i] {
      XorBitsTwice(a[i], b[i], 8, 256);
    }
  }

  /** Each block is whitened with the cipher block before it, the first with the IV. */
  function Encrypt(c: Cipher, key: Bytes, iv: Block, data: Bytes): (r: Bytes)
    requires |data| % BLOCK == 0
    ensures |r| == |data|
    decreases |data|
  {
    if data == [] then []
    else
      var first := c.enc(key, Xor(data[..BLOCK], iv));
      first + Encrypt(c, key, first, data[BLOCK..])
  }

  function Decrypt(c: Cipher, key: Bytes, iv: Block, data: Bytes): (r: Bytes)
    requires |data| % BLOCK == 0
    ensures |r| == |data|
    decreases |data|
  {
    if data == [] then []
    else Xor(c.dec(key, data[..BLOCK]), iv) + Decrypt(c, key, data[..BLOCK], data[BLOCK..])
  }

  lemma {:induction false} DecryptOfEncrypt(c: Cipher, key: Bytes, iv: Block, data: Bytes)
    requires IsPermutation(c) && |data| % BLOCK == 0
    ensures Decrypt(c, key, iv, Encrypt(c, key, iv, data)) == data
    decreases |data|
  {
    if data != [] {
      var first := c.enc(key, Xor(data[..BLOCK], iv));
      var rest: Bytes := Encrypt(c, key, first, data[BLOCK..]);
      var all: Bytes := first + rest;
      assert all[..BLOCK] == first && all[BLOCK..] == rest;
      DecryptOfEncrypt(c, key, first, data[BLOCK..]);
      XorTwice(data[..BLOCK], iv);
      assert data == data[..BLOCK] + data[BLOCK..];
    }
  }

  lemma {:induction false} EncryptOfDecrypt(c: Cipher, key: Bytes, iv: Block, data: Bytes)
    requires IsPermutation(c) && |data| % BLOCK == 0
    ensures Encrypt(c, key, iv, Decrypt(c, key, iv, data)) == data
    decreases |data|
  {
    if data != [] {
      var plain := Xor(c.dec(key, data[..BLOCK]), iv);
      var rest: Bytes := Decrypt(c, key, data[..BLOCK], data[BLOCK..]);
      var all: Bytes := plain + rest;
      assert all[..BLOCK] == plain && all[BLOCK..] == rest;
      XorTwice(c.dec(key, data[..BLOCK]), iv);
      EncryptOfDecrypt(c, key, data[..BLOCK], data[BLOCK..]);
      assert data == data[..BLOCK] + data[BLOCK..];
    }
  }
}

/** The WeCom and Feishu message envelopes (signatures.py); text is its UTF-8 bytes. */
module Envelopes {
  import opened Wrappers
  import opened Base64
  import Cbc

  datatype Error =
    | KeyLength | KeyNotBase64 | KeySize
    | NotBase64 | TooShort | BadPadding | MissingHeader | BadLength
    | Overflow   // `to_bytes` of a message of 4 GiB or more

  datatype Opened = Opened(message: Bytes, receiveId: Bytes)

  const NONCE := 16
  const WECOM_PAD := 32
  const FEISHU_PAD := 16

  // ---------------------------------------------------------------- padding

  /** `bytes([n]) * n`. */
  function Repeated(n: Byte): Bytes {
    seq(n, _ => n)
  }

  /** `k - n % k` for the two block sizes in use. */
  function Filler(n: nat, k: nat): (pad: Byte)
    requires k == WECOM_PAD || k == FEISHU_PAD
    ensures 1 <= pad <= k
  {
    if k == WECOM_PAD then WECOM_PAD - n % WECOM_PAD else FEISHU_PAD - n % FEISHU_PAD
  }

  predicate WholeBlocks(n: nat, k: nat) {
    if k == WECOM_PAD then n % WECOM_PAD == 0 else n % FEISHU_PAD == 0
  }

  lemma Remainder32(x: nat, q: nat, r: nat)
    requires x == 32 * q + r && r < 32
    ensures x % 32 == r
  {
  }

  lemma Remainder16(x: nat, q: nat, r: nat)
    requires x == 16 * q + r && r < 16
    ensures x % 16 == r
  {
  }

  /** The filler is the only number of bytes from 1 to k that completes the last block. */
  lemma FillerExactly(n: nat, k: nat, pad: nat)
    requires (k == WECOM_PAD || k == FEISHU_PAD) && 1 <= pad <= k
    ensures WholeBlocks(n + pad, k) <==> pad == Filler(n, k)
    ensures WholeBlocks(n + pad, k) ==> (n + pad) % Cbc.BLOCK == 0 && n + pad >= k
  {
    if k == WECOM_PAD {
      var q, r := n / 32, n % 32;
      if r + pad < 32 {
        Remainder32(n + pad, q, r + pad);
      } else {
        Remainder32(n + pad, q + 1, r + pad - 32);
        if r + pad == 32 {
          Remainder16(n + pad, 2 * (q + 1), 0);
        }
      }
    } else {
      var q, r := n / 16, n % 16;
      if r + pad < 16 {
        Remainder16(n + pad, q, r + pad);
      } else {
        Remainder16(n + pad, q + 1, r + pad - 16);
      }
    }
  }

  /** Section 6.3 of RFC 5652 for block size k. */
  function Pad(plain: Bytes, k: nat): Bytes
    requires k == WECOM_PAD || k == FEISHU_PAD
  {
    plain + Repeated(Filler(|plain|, k))
  }

  /** Python's `s[-n:]` for n > 0. */
  function Tail(s: Bytes, n: nat): Bytes {
    if n <= |s| then s[|s| - n..] else s
  }

  function Unpad(padded: Bytes, k: nat): Result<Bytes, Error>
    requires padded != []
  {
    var pad := padded[|padded| - 1];
    if pad < 1 || pad > k || Tail(padded, pad) != Repeated(pad) then Err(BadPadding)
    else Ok(padded[..|padded| - pad])
  }

  /** Removing the padding gives back what was padded, whatever it ended with. */
  lemma UnpadOfPad(plain: Bytes, k: nat)
    requires k == WECOM_PAD || k == FEISHU_PAD
    ensures |Pad(plain, k)| % Cbc.BLOCK == 0 && |Pad(plain, k)| >= k && WholeBlocks(|Pad(plain, k)|, k)
    ensures Unpad(Pad(plain, k), k) == Ok(plain)
  {
    var n := Filler(|plain|, k);
    FillerExactly(|plain|, k, n);
    var padded := Pad(plain, k);
    assert padded[|padded| - 1] == n;
    assert Tail(padded, n) == Repeated(n);
  }

  /** What `Unpad` accepts is its result and the padding, all slices in range. */
  lemma UnpadAccepts(padded: Bytes, k: nat)
    requires padded != [] && Unpad(padded, k).Ok?
    ensures var plain := Unpad(padded, k).value;
      var n := padded[|padded| - 1];
      1 <= n <= k && n <= |padded| && |plain| == |padded| - n && padded == plain + Repeated(n)
  {
    var n := padded[|padded| - 1];
    assert |Tail(padded, n)| == n;
    assert padded == padded[..|padded| - n] + padded[|padded| - n..];
  }

  // ------------------------------------------------- padding and chaining

  function Seal(c: Cbc.Cipher, key: Bytes, iv: Cbc.Block, plain: Bytes, k: nat): (data: Bytes)
    requires k == WECOM_PAD || k == FEISHU_PAD
    ensures |data| >= k && |data| % Cbc.BLOCK == 0
  {
    UnpadOfPad(plain, k);
    Cbc.Encrypt(c, key, iv, Pad(plain, k))
  }

  function Unseal(c: Cbc.Cipher, key: Bytes, iv: Cbc.Block, data: Bytes, k: nat): Result<Bytes, Error>
    requires data != [] && |data| % Cbc.BLOCK == 0
  {
    Unpad(Cbc.Decrypt(c, key, iv, data), k)
  }

  lemma UnsealOfSeal(c: Cbc.Cipher, key: Bytes, iv: Cbc.Block, plain: Bytes, k: nat)
    requires Cbc.IsPermutation(c) && (k == WECOM_PAD || k == FEISHU_PAD)
    ensures Unseal(c, key, iv, Seal(c, key, iv, plain, k), k) == Ok(plain)
  {
    UnpadOfPad(plain, k);
    var padded := Pad(plain, k);
    assert Seal(c, key, iv, plain, k) == Cbc.Encrypt(c, key, iv, padded);
    Cbc.DecryptOfEncrypt(c, key, iv, padded);
  }

  /** Padding again gives the same buffer exactly when that was whole k-byte blocks. */
  lemma PadOfUnpad(padded: Bytes, k: nat)
    requires k == WECOM_PAD || k == FEISHU_PAD
    requires padded != [] && Unpad(padded, k).Ok?
    ensures Pad(Unpad(padded, k).value, k) == padded <==> WholeBlocks(|padded|, k)
  {
    UnpadAccepts(padded, k);
    var plain := Unpad(padded, k).value;
    FillerExactly(|plain|, k, padded[|padded| - 1]);
    assert |Pad(plain, k)| == |plain| + Filler(|plain|, k);
  }

  lemma SealOfUnseal(c: Cbc.Cipher, key: Bytes, iv: Cbc.Block, data: Bytes, k: nat)
    requires Cbc.IsPermutation(c) && (k == WECOM_PAD || k == FEISHU_PAD)
    requires data != [] && |data| % Cbc.BLOCK == 0 && Unseal(c, key, iv, data, k).Ok?
    ensures Seal(c, key, iv, Unseal(c, key, iv, data, k).value, k) == data <==> WholeBlocks(|data|, k)
  {
    var padded := Cbc.Decrypt(c, key, iv, data);
    var plain := Unseal(c, key, iv, data, k).value;
    PadOfUnpad(padded, k);
    UnpadOfPad(plain, k);
    Cbc.EncryptOfDecrypt(c, key, iv, data);
    Cbc.DecryptOfEncrypt(c, key, iv, Pad(plain, k));
  }

  // ---------------------------------------------------------------- framing

  const LENGTH_LIMIT := 0x1_0000_0000

  /** `n.to_bytes(size, "big")` of a number that fits. */
  function ToBigEndian(n: nat, size: nat): (b: Bytes)
    ensures |b| == size
  {
    if size == 0 then [] else ToBigEndian(n / 256, size - 1) + [n % 256]
  }

  /** `int.from_bytes(b, "big")`. */
  function FromBigEndian(b: Bytes): nat {
    if b == [] then 0 else 256 * FromBigEndian(b[..|b| - 1]) + b[|b| - 1]
  }

  function Capacity(size: nat): nat {
    if size == 0 then 1 else 256 * Capacity(size - 1)
  }

  lemma LengthField()
    ensures Capacity(4) == LENGTH_LIMIT
  {
    assert Capacity(2) == 0x1_0000;
  }

  lemma {:induction false} BigEndianInverse(n: nat, size: nat)
    requires n < Capacity(size)
    ensures FromBigEndian(ToBigEndian(n, size)) == n
  {
    if size > 0 {
      BigEndianInverse(n / 256, size - 1);
      assert ToBigEndian(n, size)[..size - 1] == ToBigEndian(n / 256, size - 1);
    }
  }

  lemma {:induction false} BigEndianUnique(b: Bytes)
    ensures FromBigEndian(b) < Capacity(|b|) && ToBigEndian(FromBigEndian(b), |b|) == b
  {
    if b != [] {
      var n := FromBigEndian(b);
      BigEndianUnique(b[..|b| - 1]);
      assert n / 256 == FromBigEndian(b[..|b| - 1]) && n % 256 == b[|b| - 1];
    }
  }

  function Frame(nonce: Bytes, message: Bytes, receiveId: Bytes): Bytes
    requires |message| < LENGTH_LIMIT
  {
    nonce + ToBigEndian(|message|, 4) + message + receiveId
  }

  function Unframe(plain: Bytes): Result<Opened, Error> {
    if |plain| < NONCE + 4 then Err(MissingHeader)
    else
      var content := plain[NONCE..];
      var length := FromBigEndian(content[..4]);
      if 4 + length > |content| then Err(BadLength)
      else Ok(Opened(content[4..4 + length], content[4 + length..]))
  }

  lemma UnframeOfFrame(nonce: Bytes, message: Bytes, receiveId: Bytes)
    requires |nonce| == NONCE && |message| < LENGTH_LIMIT
    ensures Unframe(Frame(nonce, message, receiveId)) == Ok(Opened(message, receiveId))
    ensures Frame(nonce, message, receiveId)[..NONCE] == nonce
  {
    var plain := Frame(nonce, message, receiveId);
    var content := plain[NONCE..];
    assert content == ToBigEndian(|message|, 4) + message + receiveId;
    assert content[..4] == ToBigEndian(|message|, 4);
    LengthField();
    BigEndianInverse(|message|, 4);
    assert content[4..4 + |message|] == message && content[4 + |message|..] == receiveId;
  }

  /** Parse, then print: an accepted plain text is exactly the frame of what was read from it. */
  lemma FrameOfUnframe(plain: Bytes)
    requires Unframe(plain).Ok?
    ensures var o := Unframe(plain).value;
      |o.message| < LENGTH_LIMIT && Frame(plain[..NONCE], o.message, o.receiveId) == plain
  {
    var content := plain[NONCE..];
    LengthField();
    BigEndianUnique(content[..4]);
    var length := FromBigEndian(content[..4]);
    assert plain == plain[..NONCE] + content;
    assert content == content[..4] + content[4..4 + length] + content[4 + length..];
  }

  lemma FramingIsInjective(n: Bytes, m: Bytes, r: Bytes, n': Bytes, m': Bytes, r': Bytes)
    requires |n| == NONCE && |n'| == NONCE && |m| < LENGTH_LIMIT && |m'| < LENGTH_LIMIT
    requires Frame(n, m, r) == Frame(n', m', r')
    ensures n == n' && m == m' && r == r'
  {
    UnframeOfFrame(n, m, r);
    UnframeOfFrame(n', m', r');
  }

  // ----------------------------------------------------------------- WeCom

  function AesKey(encodingAesKey: string): (r: Result<Bytes, Error>)
    ensures r.Ok? ==> |r.value| == 32
  {
    if |encodingAesKey| != 43 then Err(KeyLength)
    else
      var key := Decode(encodingAesKey + "=", true);
      if key.None? then Err(KeyNotBase64)
      else if |key.value| != 32 then Err(KeySize)
      else Ok(key.value)
  }

  /** A key is usable exactly when it is 43 characters of the base64 alphabet. */
  lemma KeyAcceptedExactly(encodingAesKey: string)
    ensures AesKey(encodingAesKey).Ok? <==> |encodingAesKey| == 43 && AllData(encodingAesKey)
  {
    if |encodingAesKey| == 43 {
      OnePad(encodingAesKey, true);
    }
  }

  /** `nonce` is what `os.urandom(16)` gave. */
  function EncryptWeCom(c: Cbc.Cipher, encodingAesKey: string, nonce: Bytes, message: Bytes, receiveId: Bytes)
      : Result<string, Error>
    requires |nonce| == NONCE
  {
    var key := AesKey(encodingAesKey);
    if key.Err? then Err(key.error)
    else if |message| >= LENGTH_LIMIT then Err(Overflow)
    else
      Ok(Encode(Seal(c, key.value, key.value[..Cbc.BLOCK], Frame(nonce, message, receiveId), WECOM_PAD)))
  }

  /** The decrypted buffer without its padding. */
  function UnsealWeCom(c: Cbc.Cipher, key: Bytes, ciphertext: string): Result<Bytes, Error>
    requires |key| == 32
  {
    var raw := Decode(ciphertext, true);
    if raw.None? then Err(NotBase64)
    else if |raw.value| < 32 || |raw.value| % Cbc.BLOCK != 0 then Err(TooShort)
    else Unseal(c, key, key[..Cbc.BLOCK], raw.value, WECOM_PAD)
  }

  function DecryptWeCom(c: Cbc.Cipher, encodingAesKey: string, ciphertext: string): Result<Opened, Error> {
    var key := AesKey(encodingAesKey);
    if key.Err? then Err(key.error)
    else
      var plain := UnsealWeCom(c, key.value, ciphertext);
      if plain.Err? then Err(plain.error) else Unframe(plain.value)
  }

  lemma UnsealWeComOfEncoded(c: Cbc.Cipher, key: Bytes, data: Bytes)
    requires |key| == 32 && |data| >= 32 && |data| % Cbc.BLOCK == 0
    ensures UnsealWeCom(c, key, Encode(data)) == Unseal(c, key, key[..Cbc.BLOCK], data, WECOM_PAD)
  {
    RoundTrip(data, true);
  }

  /** Every message under 4 GiB survives the round trip, under every usable key; all else is refused. */
  lemma WeComRoundTrip(c: Cbc.Cipher, encodingAesKey: string, nonce: Bytes, message: Bytes, receiveId: Bytes)
    requires Cbc.IsPermutation(c) && |nonce| == NONCE
    ensures var sent := EncryptWeCom(c, encodingAesKey, nonce, message, receiveId);
      && (sent.Ok? <==> |encodingAesKey| == 43 && AllData(encodingAesKey) && |message| < LENGTH_LIMIT)
      && (sent.Ok? ==> DecryptWeCom(c, encodingAesKey, sent.value) == Ok(Opened(message, receiveId)))
  {
    KeyAcceptedExactly(encodingAesKey);
    var key := AesKey(encodingAesKey);
    if key.Ok? && |message| < LENGTH_LIMIT {
      var plain := Frame(nonce, message, receiveId);
      var iv := key.value[..Cbc.BLOCK];
      UnsealOfSeal(c, key.value, iv, plain, WECOM_PAD);
      UnsealWeComOfEncoded(c, key.value, Seal(c, key.value, iv, plain, WECOM_PAD));
      UnframeOfFrame(nonce, message, receiveId);
    }
  }

  /** What an accepted cipher text holds: a frame, 1 to 32 equal padding bytes, and nothing else. */
  lemma AcceptedIsSealedFrame(c: Cbc.Cipher, encodingAesKey: string, ciphertext: string)
    requires Cbc.IsPermutation(c) && DecryptWeCom(c, encodingAesKey, ciphertext).Ok?
    ensures var key := AesKey(encodingAesKey).value;
      var plain := UnsealWeCom(c, key, ciphertext).value;
      var found := DecryptWeCom(c, encodingAesKey, ciphertext).value;
      && |found.message| < LENGTH_LIMIT
      && plain == Frame(plain[..NONCE], found.message, found.receiveId)
      && exists pad: Byte ::
           1 <= pad <= WECOM_PAD && (|plain| + pad) % Cbc.BLOCK == 0
           && Decode(ciphertext, true)
              == Some(Cbc.Encrypt(c, key, key[..Cbc.BLOCK], plain + Repeated(pad)))
  {
    var key := AesKey(encodingAesKey).value;
    var raw := Decode(ciphertext, true).value;
    var padded := Cbc.Decrypt(c, key, key[..Cbc.BLOCK], raw);
    var plain := UnsealWeCom(c, key, ciphertext).value;
    UnpadAccepts(padded, WECOM_PAD);
    Cbc.EncryptOfDecrypt(c, key, key[..Cbc.BLOCK], raw);
    FrameOfUnframe(plain);
    var pad := padded[|padded| - 1];
    assert padded == plain + Repeated(pad);
  }

  /**
   Sealing again what was opened, with the nonce found in it, gives the same text back exactly when the
   text was canonical base64 of whole 32-byte blocks.
   */
  lemma ResealExactly(c: Cbc.Cipher, encodingAesKey: string, ciphertext: string)
    requires Cbc.IsPermutation(c) && DecryptWeCom(c, encodingAesKey, ciphertext).Ok?
    ensures var plain := UnsealWeCom(c, AesKey(encodingAesKey).value, ciphertext).value;
      var found := DecryptWeCom(c, encodingAesKey, ciphertext).value;
      EncryptWeCom(c, encodingAesKey, plain[..NONCE], found.message, found.receiveId) == Ok(ciphertext)
      <==> Canonical(ciphertext) && |Decode(ciphertext, true).value| % WECOM_PAD == 0
  {
    var key := AesKey(encodingAesKey).value;
    var iv := key[..Cbc.BLOCK];
    var raw := Decode(ciphertext, true).value;
    var plain := UnsealWeCom(c, key, ciphertext).value;
    FrameOfUnframe(plain);
    SealOfUnseal(c, key, iv, raw, WECOM_PAD);
    EncodesTo(Seal(c, key, iv, plain, WECOM_PAD), ciphertext);
  }

  /** Of every accepted text that ends in one padding character there is another that opens to the same. */
  lemma TwinIsAccepted(c: Cbc.Cipher, encodingAesKey: string, ciphertext: string)
    requires DecryptWeCom(c, encodingAesKey, ciphertext).Ok? && EndsInOnePad(ciphertext) && Canonical(ciphertext)
    ensures Twin(ciphertext) != ciphertext
    ensures DecryptWeCom(c, encodingAesKey, Twin(ciphertext)) == DecryptWeCom(c, encodingAesKey, ciphertext)
  {
    TwinDecodes(ciphertext, true);
  }

  const ZERO_KEY: string := seq(43, _ => 'A')

  const ZERO_NONCE: Bytes := seq(NONCE, _ => 0)

  lemma SealSize(c: Cbc.Cipher, key: Bytes, iv: Cbc.Block, plain: Bytes, k: nat)
    requires k == WECOM_PAD || k == FEISHU_PAD
    ensures |Seal(c, key, iv, plain, k)| == |plain| + Filler(|plain|, k)
  {
  }

  /** Encoded text of 3n + 2 bytes has a twin. */
  lemma EncodedHasTwin(b: Bytes)
    requires |b| % 3 == 2
    ensures EndsInOnePad(Encode(b)) && Canonical(Encode(b))
  {
    EncodeEnd(b);
    RoundTrip(b, true);
    CanonicalExactly(Encode(b), true);
  }

  lemma ZeroKeyIsUsable()
    ensures AesKey(ZERO_KEY).Ok?
  {
    KeyAcceptedExactly(ZERO_KEY);
  }

  /** A concrete text that is not canonical base64, and opens: the empty message, with one bit flipped. */
  lemma NonCanonicalIsAccepted(c: Cbc.Cipher)
    requires Cbc.IsPermutation(c)
    ensures var sent := EncryptWeCom(c, ZERO_KEY, ZERO_NONCE, [], []);
      && sent.Ok? && EndsInOnePad(sent.value) && Canonical(sent.value) && Twin(sent.value) != sent.value
      && DecryptWeCom(c, ZERO_KEY, Twin(sent.value)) == Ok(Opened([], []))
  {
    ZeroKeyIsUsable();
    EmptyHasTwin(c, AesKey(ZERO_KEY).value);
    WeComRoundTrip(c, ZERO_KEY, ZERO_NONCE, [], []);
    TwinIsAccepted(c, ZERO_KEY, EncryptWeCom(c, ZERO_KEY, ZERO_NONCE, [], []).value);
  }

  lemma EmptyHasTwin(c: Cbc.Cipher, key: Bytes)
    requires |key| == 32
    ensures var text := Encode(Seal(c, key, key[..Cbc.BLOCK], Frame(ZERO_NONCE, [], []), WECOM_PAD));
      EndsInOnePad(text) && Canonical(text)
  {
    var plain := Frame(ZERO_NONCE, [], []);
    assert |plain| == 20;
    SealSize(c, key, key[..Cbc.BLOCK], plain, WECOM_PAD);
    EncodedHasTwin(Seal(c, key, key[..Cbc.BLOCK], plain, WECOM_PAD));
  }

  /** A 12-byte message padded to 48 bytes instead of 64: opened as well, though never written. */
  function HalfBlockText(c: Cbc.Cipher, key: Bytes, nonce: Bytes, message: Bytes): string
    requires |key| == 32 && |nonce| == NONCE && |message| == 12
  {
    Encode(Cbc.Encrypt(c, key, key[..Cbc.BLOCK], Frame(nonce, message, []) + Repeated(16)))
  }

  lemma HalfBlockIsAccepted(c: Cbc.Cipher, encodingAesKey: string, nonce: Bytes, message: Bytes)
    requires Cbc.IsPermutation(c) && AesKey(encodingAesKey).Ok? && |nonce| == NONCE && |message| == 12
    ensures var text := HalfBlockText(c, AesKey(encodingAesKey).value, nonce, message);
      && DecryptWeCom(c, encodingAesKey, text) == Ok(Opened(message, []))
      && EncryptWeCom(c, encodingAesKey, nonce, message, []) != Ok(text)
  {
    var key := AesKey(encodingAesKey).value;
    var text := HalfBlockText(c, key, nonce, message);
    HalfBlockOpens(c, key, nonce, message);
    UnframeOfFrame(nonce, message, []);
    ResealExactly(c, encodingAesKey, text);
  }

  lemma HalfBlockOpens(c: Cbc.Cipher, key: Bytes, nonce: Bytes, message: Bytes)
    requires Cbc.IsPermutation(c) && |key| == 32 && |nonce| == NONCE && |message| == 12
    ensures var text := HalfBlockText(c, key, nonce, message);
      && UnsealWeCom(c, key, text) == Ok(Frame(nonce, message, []))
      && Decode(text, true).Some? && |Decode(text, true).value| == 48
  {
    var padded: Bytes := Frame(nonce, message, []) + Repeated(16);
    var data := Cbc.Encrypt(c, key, key[..Cbc.BLOCK], padded);
    assert |data| == 48;
    UnpadOfLong(Frame(nonce, message, []));
    Cbc.DecryptOfEncrypt(c, key, key[..Cbc.BLOCK], padded);
    UnsealWeComOfEncoded(c, key, data);
    RoundTrip(data, true);
  }

  lemma UnpadOfLong(plain: Bytes)
    ensures Unpad(plain + Repeated(16), WECOM_PAD) == Ok(plain)
  {
    var padded: Bytes := plain + Repeated(16);
    assert padded[|padded| - 1] == 16;
    assert Tail(padded, 16) == Repeated(16);
    assert padded[..|plain|] == plain;
  }

  /** A byte string encodes to a decodable text exactly when the text is canonical and decodes to it. */
  lemma EncodesTo(b: Bytes, text: string)
    requires Decode(text, true).Some?
    ensures Encode(b) == text <==> Canonical(text) && Decode(text, true).value == b
  {
    RoundTrip(b, true);
    CanonicalExactly(text, true);
  }

  // ---------------------------------------------------------------- Feishu

  /** `key` is the SHA-256 digest of the configured encrypt key. */
  function DecryptFeishu(c: Cbc.Cipher, key: Bytes, ciphertext: string): Result<Bytes, Error> {
    var raw := Decode(ciphertext, true);
    if raw.None? then Err(NotBase64)
    else if |raw.value| < 32 || |raw.value| % Cbc.BLOCK != 0 then Err(TooShort)
    else Unseal(c, key, raw.value[..Cbc.BLOCK], raw.value[Cbc.BLOCK..], FEISHU_PAD)
  }

  /** How Feishu seals an event: the IV, then the padded text in CBC. */
  function SealFeishu(c: Cbc.Cipher, key: Bytes, iv: Cbc.Block, plain: Bytes): string {
    Encode(iv + Seal(c, key, iv, plain, FEISHU_PAD))
  }

  lemma DecryptFeishuOfRaw(c: Cbc.Cipher, key: Bytes, iv: Cbc.Block, data: Bytes, ciphertext: string)
    requires |data| >= Cbc.BLOCK && |data| % Cbc.BLOCK == 0 && Decode(ciphertext, true) == Some(iv + data)
    ensures DecryptFeishu(c, key, ciphertext) == Unseal(c, key, iv, data, FEISHU_PAD)
  {
    var raw: Bytes := iv + data;
    assert |raw| == 16 * (|data| / 16 + 1) + 0;
    Remainder16(|raw|, |data| / 16 + 1, 0);
    assert raw[..Cbc.BLOCK] == iv && raw[Cbc.BLOCK..] == data;
  }

  lemma FeishuRoundTrip(c: Cbc.Cipher, key: Bytes, iv: Cbc.Block, plain: Bytes)
    requires Cbc.IsPermutation(c)
    ensures DecryptFeishu(c, key, SealFeishu(c, key, iv, plain)) == Ok(plain)
  {
    var data := Seal(c, key, iv, plain, FEISHU_PAD);
    UnsealOfSeal(c, key, iv, plain, FEISHU_PAD);
    RoundTrip(iv + data, true);
    DecryptFeishuOfRaw(c, key, iv, data, SealFeishu(c, key, iv, plain));
  }

  /** The decrypter accepts no text but a sealed one, up to the slack of its base64. */
  lemma FeishuAcceptsOnlySealed(c: Cbc.Cipher, key: Bytes, ciphertext: string)
    requires Cbc.IsPermutation(c) && DecryptFeishu(c, key, ciphertext).Ok?
    ensures var raw := Decode(ciphertext, true).value;
      var sealed := SealFeishu(c, key, raw[..Cbc.BLOCK], DecryptFeishu(c, key, ciphertext).value);
      Decode(sealed, true) == Some(raw) && (sealed == ciphertext <==> Canonical(ciphertext))
  {
    var raw := Decode(ciphertext, true).value;
    var iv, data := raw[..Cbc.BLOCK], raw[Cbc.BLOCK..];
    SealOfUnseal(c, key, iv, data, FEISHU_PAD);
    assert raw == iv + data;
    RoundTrip(raw, true);
    EncodesTo(raw, ciphertext);
  }

  /** A concrete slack: an event of under 16 bytes, sealed, opens with its last character changed too. */
  lemma FeishuTwinIsAccepted(c: Cbc.Cipher, key: Bytes, iv: Cbc.Block, plain: Bytes)
    requires Cbc.IsPermutation(c) && |plain| < FEISHU_PAD
    ensures var text := SealFeishu(c, key, iv, plain);
      EndsInOnePad(text) && Canonical(text) && Twin(text) != text && DecryptFeishu(c, key, Twin(text)) == Ok(plain)
  {
    var raw := iv + Seal(c, key, iv, plain, FEISHU_PAD);
    SealSize(c, key, iv, plain, FEISHU_PAD);
    assert |raw| == 32;
    RoundTrip(raw, true);
    EncodedHasTwin(raw);
    TwinDecodes(Encode(raw), true);
    FeishuRoundTrip(c, key, iv, plain);
  }
}
