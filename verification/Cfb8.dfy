// utils/utils.go: decryption in 8-bit cipher feedback mode, with an arbitrary block cipher for AES.

module Cfb8 {
  import opened Common
  import opened RawBytes

  // The block cipher under some key: 16 bytes to 16 bytes.
  type Cipher = Bytes -> Bytes

  predicate IsBlock(b: Bytes) { |b| == 16 }

  // Every block is encrypted to a block.
  ghost predicate IsCipher(encrypt: Cipher) {
    forall b :: |b| == 16 ==> |encrypt(b)| == 16
  }

  function Xor(a: bv8, b: bv8): bv8 {
    a ^ b
  }

  lemma XorTwice(a: bv8, k: bv8)
    ensures Xor(Xor(a, k), k) == a
  {
  }

  // The register is shifted by one byte.
  function Shift(register: Bytes, c: bv8): (r: Bytes)
    requires IsBlock(register)
    ensures IsBlock(r)
  {
    register[1..] + [c]
  }

  function Decrypt(encrypt: Cipher, register: Bytes, data: Bytes): (r: Bytes)
    requires IsCipher(encrypt) && IsBlock(register)
    ensures |r| == |data|
    decreases |data|
  {
    if data == [] then [] else
      [Xor(data[0], encrypt(register)[0])] + Decrypt(encrypt, Shift(register, data[0]), data[1..])
  }

  // The same mode in the other direction: the register takes the ciphertext.
  function Encrypt(encrypt: Cipher, register: Bytes, plain: Bytes): (r: Bytes)
    requires IsCipher(encrypt) && IsBlock(register)
    ensures |r| == |plain|
    decreases |plain|
  {
    if plain == [] then [] else
      var c := Xor(plain[0], encrypt(register)[0]);
      [c] + Encrypt(encrypt, Shift(register, c), plain[1..])
  }

  // The last 16 bytes.
  function Last16(b: Bytes): (r: Bytes)
    requires |b| >= 16
    ensures IsBlock(r)
  {
    b[|b| - 16..]
  }

  // ---- the definition of the standard ----

  // Section 6.3 of NIST SP 800-38A for s = 8: input block j is the 16 bytes before ciphertext byte j, the
  // initialization vector being the first; a byte of ciphertext is the byte of plaintext and the first byte of its
  // output block.
  ghost predicate IsCfb8(encrypt: Cipher, iv: Bytes, plain: Bytes, cipher: Bytes)
    requires IsCipher(encrypt) && IsBlock(iv)
  {
    && |plain| == |cipher|
    && forall j :: 0 <= j < |plain| ==> cipher[j] == plain[j] ^ encrypt((iv + cipher)[j..j + 16])[0]
  }

  lemma ModeForm(encrypt: Cipher, iv: Bytes, plain: Bytes, cipher: Bytes)
    requires IsCipher(encrypt) && IsBlock(iv)
    ensures IsCfb8(encrypt, iv, plain, cipher) <==>
            && |plain| == |cipher|
            && forall j :: 0 <= j < |plain| ==> cipher[j] == Xor(plain[j], encrypt((iv + cipher)[j..j + 16])[0])
  {
  }

  lemma BlockSize(b: Bytes)
    ensures IsBlock(b) <==> |b| == 16
  {
  }

  lemma Window(register: Bytes, data: Bytes, j: nat)
    requires IsBlock(register) && 0 < j < |data|
    ensures j + 16 <= |register + data| && j + 15 <= |Shift(register, data[0]) + data[1..]|
    ensures (register + data)[j..j + 16] == (Shift(register, data[0]) + data[1..])[j - 1..j + 15]
  {
    assert (register + data)[1..] == Shift(register, data[0]) + data[1..];
  }

  lemma CryptForms(encrypt: Cipher, register: Bytes, data: Bytes)
    requires IsCipher(encrypt) && IsBlock(register)
    ensures |encrypt(register)| == 16
    ensures data == [] ==> Decrypt(encrypt, register, data) == [] && Encrypt(encrypt, register, data) == []
    ensures data != [] ==>
              var x := Xor(data[0], encrypt(register)[0]);
              && Decrypt(encrypt, register, data) == [x] + Decrypt(encrypt, Shift(register, data[0]), data[1..])
              && Encrypt(encrypt, register, data) == [x] + Encrypt(encrypt, Shift(register, x), data[1..])
  {
    hide Xor;
  }

  // Byte j of what is decrypted.
  lemma {:induction false} DecryptAt(encrypt: Cipher, register: Bytes, data: Bytes, j: nat)
    requires IsCipher(encrypt) && IsBlock(register) && j < |data|
    ensures Decrypt(encrypt, register, data)[j] == Xor(data[j], encrypt((register + data)[j..j + 16])[0])
    decreases |data|
  {
    hide *;
    CryptForms(encrypt, register, data);
    if j == 0 {
      assert (register + data)[0..16] == register by { BlockSize(register); }
    } else {
      var next := Shift(register, data[0]);
      DecryptAt(encrypt, next, data[1..], j - 1);
      Window(register, data, j);
    }
  }

  // Decrypting is the inverse of the mode as the standard defines it, with the register as initialization vector.
  lemma DecryptsIff(encrypt: Cipher, iv: Bytes, plain: Bytes, cipher: Bytes)
    requires IsCipher(encrypt) && IsBlock(iv)
    ensures Decrypt(encrypt, iv, cipher) == plain <==> IsCfb8(encrypt, iv, plain, cipher)
  {
    hide Xor, IsCfb8;
    ModeForm(encrypt, iv, plain, cipher);
    var d := Decrypt(encrypt, iv, cipher);
    forall j | 0 <= j < |cipher| ensures d[j] == Xor(cipher[j], encrypt((iv + cipher)[j..j + 16])[0]) {
      DecryptAt(encrypt, iv, cipher, j);
    }
    if |plain| == |cipher| {
      forall j | 0 <= j < |cipher|
        ensures d[j] == plain[j] <==> cipher[j] == Xor(plain[j], encrypt((iv + cipher)[j..j + 16])[0])
      {
        XorTwice(plain[j], encrypt((iv + cipher)[j..j + 16])[0]);
        XorTwice(cipher[j], encrypt((iv + cipher)[j..j + 16])[0]);
      }
      if IsCfb8(encrypt, iv, plain, cipher) {
        assert d == plain;
      }
    }
  }

  lemma {:induction false} DecryptEncrypt(encrypt: Cipher, register: Bytes, plain: Bytes)
    requires IsCipher(encrypt) && IsBlock(register)
    ensures Decrypt(encrypt, register, Encrypt(encrypt, register, plain)) == plain
    decreases |plain|
  {
    hide *;
    CryptForms(encrypt, register, plain);
    if plain != [] {
      var k := encrypt(register)[0];
      var c := Xor(plain[0], k);
      XorTwice(plain[0], k);
      var rest := Encrypt(encrypt, Shift(register, c), plain[1..]);
      DecryptEncrypt(encrypt, Shift(register, c), plain[1..]);
      CryptForms(encrypt, register, [c] + rest);
      assert ([c] + rest)[1..] == rest;
    }
  }

  // So encrypting is the mode, too.
  lemma EncryptIsCfb8(encrypt: Cipher, register: Bytes, plain: Bytes)
    requires IsCipher(encrypt) && IsBlock(register)
    ensures IsCfb8(encrypt, register, plain, Encrypt(encrypt, register, plain))
  {
    hide *;
    DecryptEncrypt(encrypt, register, plain);
    DecryptsIff(encrypt, register, plain, Encrypt(encrypt, register, plain));
  }

  // ---- reading in parts ----

  // A register of the last 16 bytes takes in more data and is the last 16 bytes again.
  lemma Last16Append(before: Bytes, data: Bytes)
    requires |before| >= 16
    ensures Last16(Last16(before) + data) == Last16(before + data)
    ensures data != [] ==> Shift(Last16(before), data[0]) == Last16(before + [data[0]])
  {
    assert (Last16(before) + data)[|data|..] == (before + data)[|before| + |data| - 16..];
  }

  // Where the data is split makes no difference, if the second part starts with the last 16 bytes before it.
  lemma {:induction false} DecryptSplit(encrypt: Cipher, register: Bytes, a: Bytes, b: Bytes)
    requires IsCipher(encrypt) && IsBlock(register)
    ensures Decrypt(encrypt, register, a + b) == Decrypt(encrypt, register, a)
            + Decrypt(encrypt, Last16(register + a), b)
    decreases |a|
  {
    hide Xor;
    if a == [] {
      assert a + b == b && Last16(register + a) == register;
    } else {
      var next := Shift(register, a[0]);
      DecryptSplit(encrypt, next, a[1..], b);
      assert (a + b)[1..] == a[1..] + b;
      assert Last16(next + a[1..]) == Last16(register + a) by {
        assert (next + a[1..])[|a| - 1..] == (register + a)[|a|..];
      }
    }
  }

  // What a reader gives for the parts that the underlying reader gives it.
  function ReadAll(encrypt: Cipher, register: Bytes, parts: seq<Bytes>): (r: seq<Bytes>)
    requires IsCipher(encrypt) && IsBlock(register)
    decreases |parts|
  {
    if parts == [] then [] else
      [Decrypt(encrypt, register, parts[0])] + ReadAll(encrypt, Last16(register + parts[0]), parts[1..])
  }

  // For every split of the ciphertext over reads, empty ones included, the bytes read are those CfbDecrypt gives for
  // the whole.
  lemma {:induction false} AnySplit(encrypt: Cipher, register: Bytes, parts: seq<Bytes>)
    requires IsCipher(encrypt) && IsBlock(register)
    ensures Concat(ReadAll(encrypt, register, parts)) == Decrypt(encrypt, register, Concat(parts))
    decreases |parts|
  {
    hide Xor;
    if parts != [] {
      var next := Last16(register + parts[0]);
      AnySplit(encrypt, next, parts[1..]);
      DecryptSplit(encrypt, register, parts[0], Concat(parts[1..]));
      var all := ReadAll(encrypt, register, parts);
      assert all[0] == Decrypt(encrypt, register, parts[0]) && all[1..] == ReadAll(encrypt, next, parts[1..]);
    }
  }

  function RegisterAfter(register: Bytes, parts: seq<Bytes>): (r: Bytes)
    requires IsBlock(register)
    ensures IsBlock(r)
    decreases |parts|
  {
    if parts == [] then register else RegisterAfter(Last16(register + parts[0]), parts[1..])
  }

  // The register always holds the last 16 bytes of the key's first 16 and the ciphertext so far.
  lemma {:induction false} RegisterIsWindow(register: Bytes, before: Bytes, parts: seq<Bytes>)
    requires |before| >= 16 && register == Last16(before)
    ensures RegisterAfter(register, parts) == Last16(before + Concat(parts))
    decreases |parts|
  {
    hide Last16;
    if parts == [] {
      assert before + [] == before;
    } else {
      Last16Append(before, parts[0]);
      RegisterIsWindow(Last16(register + parts[0]), before + parts[0], parts[1..]);
      assert before + parts[0] + Concat(parts[1..]) == before + (parts[0] + Concat(parts[1..]));
    }
  }

  // ---- the code ----

  // The key is a slice: `length` bytes from `off` on of an array, in which it may grow to `cap` bytes.
  predicate IsSlice(size: nat, off: nat, length: nat, cap: nat) {
    length <= cap && off + cap <= size
  }

  // CfbDecrypt appends the data to key[:16]: where the capacity of the key is large enough, the bytes of the array
  // behind its first 16 are overwritten, whatever its length.
  function MemoryAfter(mem: Bytes, off: nat, cap: nat, data: Bytes): (r: Bytes)
    requires 16 <= cap && off + cap <= |mem|
    ensures |r| == |mem|
  {
    if 16 + |data| <= cap then mem[..off + 16] + data + mem[off + 16 + |data|..] else mem
  }

  lemma MemoryAt(mem: Bytes, off: nat, cap: nat, data: Bytes, i: nat)
    requires 16 <= cap && off + cap <= |mem| && i < |mem|
    ensures MemoryAfter(mem, off, cap, data)[i] ==
            if 16 + |data| <= cap && off + 16 <= i < off + 16 + |data| then data[i - off - 16] else mem[i]
  {
  }

  // `r` is `mem` with the data at off + 16.
  ghost predicate Written(mem: Bytes, off: nat, r: Bytes, data: Bytes) {
    && |r| == |mem| && off + 16 + |data| <= |mem|
    && forall i :: 0 <= i < |mem| ==> r[i] == if off + 16 <= i < off + 16 + |data| then data[i - off - 16] else mem[i]
  }

  lemma KeyOverwritten(mem: Bytes, off: nat, length: nat, r: Bytes, data: Bytes)
    requires Written(mem, off, r, data) && off + length <= |mem|
    ensures r[off..off + length] == mem[off..off + length]
            <==> forall i :: 0 <= i < |data| && 16 + i < length ==> mem[off + 16 + i] == data[i]
  {
    if r[off..off + length] == mem[off..off + length] {
      forall i | 0 <= i < |data| && 16 + i < length ensures mem[off + 16 + i] == data[i] {
        assert r[off..off + length][16 + i] == mem[off..off + length][16 + i];
      }
    }
    if forall i :: 0 <= i < |data| && 16 + i < length ==> mem[off + 16 + i] == data[i] {
      forall j | off <= j < off + length ensures r[j] == mem[j] {
        if off + 16 <= j < off + 16 + |data| {
          var i := j - off - 16;
          assert mem[off + 16 + i] == data[i];
        }
      }
    }
  }

  lemma AllOverwritten(mem: Bytes, off: nat, r: Bytes, data: Bytes)
    requires Written(mem, off, r, data)
    ensures r == mem <==> mem[off + 16..off + 16 + |data|] == data
  {
    assert r[off + 16..off + 16 + |data|] == data;
    if mem[off + 16..off + 16 + |data|] == data {
      forall j | 0 <= j < |mem| ensures r[j] == mem[j] {
        if off + 16 <= j < off + 16 + |data| {
          assert mem[off + 16..off + 16 + |data|][j - off - 16] == mem[j];
        }
      }
    }
  }

  // The key survives the call if and only if its capacity has no room for the data behind its first 16 bytes, or what
  // is written within its length stands there already. The whole array survives if and only if there is no room, or the
  // data stands there already.
  lemma KeySurvivesIff(mem: Bytes, off: nat, length: nat, cap: nat, data: Bytes)
    requires IsSlice(|mem|, off, length, cap) && length >= 16
    ensures var r := MemoryAfter(mem, off, cap, data);
            r[off..off + length] == mem[off..off + length] <==>
            16 + |data| > cap || forall i :: 0 <= i < |data| && 16 + i < length ==> mem[off + 16 + i] == data[i]
    ensures MemoryAfter(mem, off, cap, data) == mem <==>
            16 + |data| > cap || mem[off + 16..off + 16 + |data|] == data
  {
    var r := MemoryAfter(mem, off, cap, data);
    forall i | 0 <= i < |mem|
      ensures r[i] == if 16 + |data| <= cap && off + 16 <= i < off + 16 + |data| then data[i - off - 16] else mem[i]
    {
      MemoryAt(mem, off, cap, data, i);
    }
    hide MemoryAfter;
    if 16 + |data| <= cap {
      KeyOverwritten(mem, off, length, r, data);
      AllOverwritten(mem, off, r, data);
    } else {
      assert r == mem;
    }
  }

  // A key of 24 bytes in an array of 64 is overwritten by 20 bytes of data: the capacity decides, not the length.
  lemma ShortKeyOverwritten(mem: Bytes, data: Bytes)
    requires |mem| == 64 && |data| == 20 && data[0] != mem[16]
    ensures 16 + |data| > 24 && MemoryAfter(mem, 0, 64, data)[..24] != mem[..24]
  {
    MemoryAt(mem, 0, 64, data, 16);
    hide MemoryAfter;
    assert MemoryAfter(mem, 0, 64, data)[..24][16] != mem[..24][16];
  }

  // `mem` is the array of the key.
  method CfbDecrypt(data: array<bv8>, mem: array<bv8>, keyOff: nat, keyLen: nat, keyCap: nat, encrypt: Cipher)
    requires IsCipher(encrypt) && IsSlice(mem.Length, keyOff, keyLen, keyCap) && keyLen >= 16 && data != mem
    modifies data, mem
    ensures IsCfb8(encrypt, old(mem[keyOff..keyOff + 16]), data[..], old(data[..]))
    ensures data[..] == Decrypt(encrypt, old(mem[keyOff..keyOff + 16]), old(data[..]))
    ensures mem[..] == MemoryAfter(old(mem[..]), keyOff, keyCap, old(data[..]))
  {
    hide Xor, Decrypt, IsCfb8;
    ghost var was, memWas, iv0 := data[..], mem[..], mem[keyOff..keyOff + 16];
    var shiftRegister := mem[keyOff..keyOff + 16] + data[..];
    if 16 + data.Length <= keyCap {
      forall i | 0 <= i < data.Length {
        mem[keyOff + 16 + i] := data[i];
      }
    }
    assert mem[..] == MemoryAfter(memWas, keyOff, keyCap, was);
    hide MemoryAfter;
    var off := 0;
    while off < data.Length
      invariant 0 <= off <= data.Length
      invariant shiftRegister == (iv0 + was)[off..]
      invariant data[..off] == Decrypt(encrypt, iv0, was)[..off]
      invariant data[off..] == was[off..]
      invariant mem[..] == MemoryAfter(memWas, keyOff, keyCap, was)
    {
      var iv := encrypt(shiftRegister[..16]);
      DecryptAt(encrypt, iv0, was, off);
      assert shiftRegister[..16] == (iv0 + was)[off..off + 16];
      assert data[off] == was[off];
      data[off] := Xor(data[off], iv[0]);
      shiftRegister := shiftRegister[1..];
      off := off + 1;
    }
    DecryptsIff(encrypt, iv0, data[..], was);
  }

  lemma Last16Empty(register: Bytes)
    requires IsBlock(register)
    ensures Last16(register + []) == register
  {
  }

  // What a turn of the loop does to the buffer, the register and what is still to be decrypted.
  lemma TurnForms(encrypt: Cipher, register: Bytes, now: Bytes, out: Bytes, got: Bytes, off: nat, rest: Bytes)
    requires IsCipher(encrypt) && IsBlock(register) && off < |got| && |out| == off
    requires now == Last16(register + got[..off])
    ensures var c := got[off];
            var x := Xor(c, encrypt(now)[0]);
            && (out + (got[off..] + rest))[off] == c
            && (out + (got[off..] + rest))[off := x] == out + [x] + (got[off + 1..] + rest)
            && Shift(now, c) == Last16(register + got[..off + 1])
            && out + Decrypt(encrypt, now, got[off..]) == out + [x] + Decrypt(encrypt, Shift(now, c), got[off + 1..])
  {
    hide Xor, Decrypt;
    CryptForms(encrypt, now, got[off..]);
    assert got[off..][1..] == got[off + 1..];
    Last16Append(register + got[..off], [got[off]]);
    assert register + got[..off] + [got[off]] == register + got[..off + 1];
  }

  // The reader of NewCfb8.
  class Reader {
    const encrypt: Cipher
    const shiftRegister: array<bv8>

    ghost predicate Valid()
      reads this
    {
      shiftRegister.Length == 16 && IsCipher(encrypt)
    }

    constructor (encrypt: Cipher, key: Bytes)
      requires IsCipher(encrypt) && |key| >= 16
      ensures Valid() && fresh(shiftRegister) && shiftRegister[..] == key[..16] && this.encrypt == encrypt
    {
      this.encrypt := encrypt;
      shiftRegister := new bv8[16](i requires 0 <= i < 16 => key[i]);
    }

    // memmove by one byte, and the new one at the end.
    method ShiftIn(c: bv8)
      requires Valid()
      modifies shiftRegister
      ensures shiftRegister[..] == Shift(old(shiftRegister[..]), c)
    {
      forall i | 0 <= i < 15 {
        shiftRegister[i] := shiftRegister[i + 1];
      }
      shiftRegister[15] := c;
    }

    // One turn of the loop of Read.
    method DecryptByte(dst: array<bv8>, off: nat)
      requires Valid() && dst != shiftRegister && off < dst.Length
      modifies dst, shiftRegister
      ensures dst[..] == old(dst[..])[off := Xor(old(dst[off]), encrypt(old(shiftRegister[..]))[0])]
      ensures shiftRegister[..] == Shift(old(shiftRegister[..]), old(dst[off]))
    {
      var iv := encrypt(shiftRegister[..]);
      ShiftIn(dst[off]);
      dst[off] := Xor(dst[off], iv[0]);
    }

    // The loop of Read (lines 123-131).
    method DecryptPrefix(dst: array<bv8>, n: nat)
      requires Valid() && dst != shiftRegister && n <= dst.Length
      modifies dst, shiftRegister
      ensures dst[..] == Decrypt(encrypt, old(shiftRegister[..]), old(dst[..n])) + old(dst[n..])
      ensures shiftRegister[..] == Last16(old(shiftRegister[..]) + old(dst[..n]))
    {
      hide Xor, Decrypt, Last16;
      ghost var register, got, rest := shiftRegister[..], dst[..n], dst[n..];
      ghost var out: Bytes := [];
      var off := 0;
      Last16Empty(register);
      assert got[0..] == got && got[..0] == [];
      while off < n
        invariant 0 <= off <= n && |out| == off
        invariant dst[..] == out + (got[off..] + rest)
        invariant out + Decrypt(encrypt, shiftRegister[..], got[off..]) == Decrypt(encrypt, register, got)
        invariant shiftRegister[..] == Last16(register + got[..off])
      {
        TurnForms(encrypt, register, shiftRegister[..], out, got, off, rest);
        DecryptByte(dst, off);
        out := out + [Xor(got[off], encrypt(Last16(register + got[..off]))[0])];
        off := off + 1;
      }
      assert got[..n] == got && got[n..] == [];
      CryptForms(encrypt, shiftRegister[..], []);
      assert out + [] == out && out + ([] + rest) == out + rest;
    }

    // `got` is what the underlying reader has put into dst.
    method Read(dst: array<bv8>, got: Bytes) returns (n: nat)
      requires Valid() && dst != shiftRegister && |got| <= dst.Length
      modifies dst, shiftRegister
      ensures Valid() && n == |got|
      ensures IsCfb8(encrypt, old(shiftRegister[..]), dst[..n], got)
      ensures dst[..] == Decrypt(encrypt, old(shiftRegister[..]), got) + old(dst[|got|..])
      ensures shiftRegister[..] == Last16(old(shiftRegister[..]) + got)
    {
      hide Xor, Decrypt, Last16, IsCfb8;
      n := |got|;
      forall i | 0 <= i < n {
        dst[i] := got[i];
      }
      assert shiftRegister[..] == old(shiftRegister[..]) && dst[..n] == got && dst[n..] == old(dst[|got|..]);
      ghost var register := shiftRegister[..];
      DecryptPrefix(dst, n);
      DecryptsIff(encrypt, register, dst[..n], got);
    }
  }
}
