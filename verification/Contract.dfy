/**
 The registry contract (contracts/KORDRegistry.sol) and the test registry that
 stands in for it (testutil/util.go): decoding a signature from memory, and the
 ledger both keep.
 */
module Contract {
  import opened Values

  /** Public-key recovery: a hash, a recovery id, and the numbers r and s. */
  type Recover = (Hash, nat, nat, nat) -> Option<Address>

  const ZERO_ADDRESS: Address := [0, 0, 0, 0, 0, 0, 0, 0, 0, 0, 0, 0, 0, 0, 0, 0, 0, 0, 0, 0]

  // ------------------------------------------------------------------- memory

  /** EVM memory: every address holds a byte. */
  type Memory = nat -> byte

  /** The bytes from an address on. */
  function Slice(mem: Memory, at: nat, n: nat): (b: Bytes)
    ensures |b| == n && forall i :: 0 <= i < n ==> b[i] == mem(at + i)
  {
    seq(n, i requires 0 <= i < n => mem(at + i))
  }

  function BigEndian(b: Bytes): nat {
    if b == [] then 0 else BigEndian(b[..|b| - 1]) * 256 + b[|b| - 1] as nat
  }

  function MLoad(mem: Memory, at: nat): nat {
    BigEndian(Slice(mem, at, 32))
  }

  /** A number without its n lowest bytes. */
  function DropBytes(w: nat, n: nat): nat {
    if n == 0 then w else DropBytes(w / 256, n - 1)
  }

  /** The EVM's byte(0, w): the most significant of the 32 bytes of a word. */
  function Byte0(w: nat): nat {
    DropBytes(w, 31)
  }

  /** A `bytes` value in memory: its length, then its bytes; any bytes follow. */
  ghost predicate Holds(mem: Memory, at: nat, b: Bytes) {
    MLoad(mem, at) == |b| && Slice(mem, at + 32, |b|) == b
  }

  lemma {:induction false} FirstByte(b: Bytes)
    requires b != []
    ensures DropBytes(BigEndian(b), |b| - 1) == b[0] as nat
  {
    var n := |b| - 1;
    if n == 0 {
      assert b[..0] == [];
    } else {
      FirstByte(b[..n]);
      assert BigEndian(b) / 256 == BigEndian(b[..n]);
    }
  }

  /** Words of the same bytes only are equal. */
  lemma {:induction false} BigEndianInjective(a: Bytes, b: Bytes)
    requires |a| == |b| && BigEndian(a) == BigEndian(b)
    ensures a == b
  {
    if a != [] {
      var n := |a| - 1;
      var x, y := BigEndian(a[..n]), BigEndian(b[..n]);
      assert x * 256 + a[n] as nat == y * 256 + b[n] as nat;
      BigEndianInjective(a[..n], b[..n]);
      assert a == a[..n] + [a[n]] && b == b[..n] + [b[n]];
    }
  }

  /** The k lowest bytes of a number, most significant first. */
  function BytesOf(n: nat, k: nat): (b: Bytes)
    ensures |b| == k
  {
    if k == 0 then [] else BytesOf(n / 256, k - 1) + [(n % 256) as byte]
  }

  function Pow256(k: nat): (p: nat)
    ensures p > 0
  {
    if k == 0 then 1 else 256 * Pow256(k - 1)
  }

  /** A bytes32. */
  function Word(n: nat): (b: Bytes)
    ensures |b| == 32
  {
    BytesOf(n, 32)
  }

  /** Reading undoes writing, of every number that fits. */
  lemma {:induction false} ReadWritten(n: nat, k: nat)
    requires n < Pow256(k)
    ensures BigEndian(BytesOf(n, k)) == n
  {
    if k > 0 {
      ReadWritten(n / 256, k - 1);
      assert BytesOf(n, k)[..k - 1] == BytesOf(n / 256, k - 1);
    }
  }

  /** And writing undoes reading. */
  lemma {:induction false} WrittenRead(b: Bytes)
    ensures BigEndian(b) < Pow256(|b|) && BytesOf(BigEndian(b), |b|) == b
  {
    if b != [] {
      var n := |b| - 1;
      WrittenRead(b[..n]);
      assert BigEndian(b) / 256 == BigEndian(b[..n]) && BigEndian(b) % 256 == b[n] as nat;
      assert b == b[..n] + [b[n]];
    }
  }

  /** The three loads of setGraph find bytes 0-31, 32-63 and 64 of a 65-byte
      signature, whatever the memory after it holds. */
  lemma Loads(mem: Memory, at: nat, sig: Bytes)
    requires Holds(mem, at, sig) && |sig| == 65
    ensures MLoad(mem, at + 32) == BigEndian(sig[..32])
    ensures MLoad(mem, at + 64) == BigEndian(sig[32..64])
    ensures Byte0(MLoad(mem, at + 96)) == sig[64] as nat
  {
    assert Slice(mem, at + 32, 32) == sig[..32];
    assert Slice(mem, at + 64, 32) == sig[32..64] by {
      forall i | 0 <= i < 32 ensures Slice(mem, at + 64, 32)[i] == sig[32..64][i] {
        assert Slice(mem, at + 32, 65)[32 + i] == mem(at + 32 + (32 + i));
      }
    }
    var word := Slice(mem, at + 96, 32);
    assert word[0] == Slice(mem, at + 32, 65)[64];
    FirstByte(word);
  }

  // ------------------------------------------------------------------- ledger

  datatype Publish = Publish(hash: Hash, sig: Bytes)

  /** A signature: r, s and a last byte. */
  predicate IsSignature(sig: Bytes, r: nat, s: nat, v: byte) {
    r < Pow256(32) && s < Pow256(32) && sig == Word(r) + Word(s) + [v]
  }

  /** Every 65 bytes are one. */
  lemma EverySignature(sig: Bytes)
    requires |sig| == 65
    ensures IsSignature(sig, BigEndian(sig[..32]), BigEndian(sig[32..64]), sig[64])
  {
    WrittenRead(sig[..32]);
    WrittenRead(sig[32..64]);
    assert sig == sig[..32] + sig[32..64] + [sig[64]];
    hide BytesOf, Pow256, BigEndian;
  }

  lemma SignatureParts(sig: Bytes, r: nat, s: nat, v: byte)
    requires IsSignature(sig, r, s, v)
    ensures |sig| == 65 && BigEndian(sig[..32]) == r && BigEndian(sig[32..64]) == s && sig[64] == v
  {
    ReadWritten(r, 32);
    ReadWritten(s, 32);
    hide BytesOf, Pow256, BigEndian;
    assert sig[..32] == Word(r) && sig[32..64] == Word(s);
  }

  /** The signer a signature over the hash recovers to, with a recovery id. */
  function SignerOf(recover: Recover, p: Publish, id: nat): Option<Address>
    requires |p.sig| == 65
  {
    recover(p.hash, id, BigEndian(p.sig[..32]), BigEndian(p.sig[32..64]))
  }

  /** The contract accepts last byte 0, 1, 27 or 28. */
  predicate Accepts(sig: Bytes) {
    |sig| == 65 && sig[64] in {0, 1, 27, 28}
  }

  function OrZero(a: Option<Address>): Address {
    if a.Some? then a.value else ZERO_ADDRESS
  }

  /** The entry a publication writes in the contract; the precompiled ecrecover
      gives the zero address for what it cannot recover. */
  function ContractEntry(recover: Recover, p: Publish): Option<Address> {
    if !Accepts(p.sig) then None
    else Some(OrZero(SignerOf(recover, p, if p.sig[64] in {0, 27} then 0 else 1)))
  }

  /** The entry it writes in the test registry, which takes recovery ids below 4. */
  function TestEntry(recover: Recover, p: Publish): Option<Address> {
    if |p.sig| != 65 || p.sig[64] >= 4 then None else SignerOf(recover, p, p.sig[64] as nat)
  }

  /** What the two write for r, s and a last byte: the address recovered with the
      recovery id that the byte stands for. */
  lemma EntriesOf(recover: Recover, hash: Hash, sig: Bytes, r: nat, s: nat, v: byte)
    requires IsSignature(sig, r, s, v)
    ensures ContractEntry(recover, Publish(hash, sig)) ==
      if v == 0 || v == 27 then Some(OrZero(recover(hash, 0, r, s)))
      else if v == 1 || v == 28 then Some(OrZero(recover(hash, 1, r, s)))
      else None
    ensures forall i :: 0 <= i < 20 ==> OrZero(None)[i] == 0
    ensures TestEntry(recover, Publish(hash, sig)) == if v < 4 then recover(hash, v as nat, r, s) else None
  {
    SignatureParts(sig, r, s, v);
    hide IsSignature, BigEndian;
  }

  function Record(graphs: map<Address, Hash>, entry: Option<Address>, hash: Hash): map<Address, Hash> {
    if entry.Some? then graphs[entry.value := hash] else graphs
  }

  class KORDRegistry {
    var graphs: map<Address, Hash>
    const recover: Recover

    constructor (recover: Recover)
      ensures graphs == map[] && this.recover == recover
    {
      graphs, this.recover := map[], recover;
    }

    method Graph(kordID: Address) returns (hash: Hash)
      ensures hash == HashAt(graphs, kordID)
    {
      hash := if kordID in graphs then graphs[kordID] else EMPTY_HASH;
    }

    method Ecrecover(hash: Hash, v: nat, r: nat, s: nat) returns (a: Address)
      requires v == 27 || v == 28
      ensures a == OrZero(recover(hash, v - 27, r, s))
    {
      var got := recover(hash, v - 27, r, s);
      a := if got.Some? then got.value else ZERO_ADDRESS;
    }

    /** setGraph, on the signature bytes that memory holds at `at`. */
    method SetGraph(hash: Hash, mem: Memory, at: nat, ghost sig: Bytes) returns (ok: bool)
      requires Holds(mem, at, sig)
      modifies this
      ensures ok <==> Accepts(sig)
      ensures graphs == Record(old(graphs), ContractEntry(recover, Publish(hash, sig)), hash)
      ensures |sig| != 65 ==> !ok && graphs == old(graphs)
      ensures forall r, s, v :: IsSignature(sig, r, s, v) ==>
        && (ok <==> v == 0 || v == 1 || v == 27 || v == 28)
        && graphs == if !ok then old(graphs)
                     else match recover(hash, if v == 0 || v == 27 then 0 else 1, r, s)
                          case Some(a) => old(graphs)[a := hash]
                          case None => old(graphs)[ZERO_ADDRESS := hash]
    {
      forall r, s, v | IsSignature(sig, r, s, v) ensures |sig| == 65 && sig[64] == v
        && BigEndian(sig[..32]) == r && BigEndian(sig[32..64]) == s
      {
        SignatureParts(sig, r, s, v);
      }
      hide IsSignature;
      if MLoad(mem, at) != 65 { return false; }
      Loads(mem, at, sig);
      hide Byte0, MLoad, BigEndian;
      var r := MLoad(mem, at + 32);
      var s := MLoad(mem, at + 64);
      var v := Byte0(MLoad(mem, at + 96));
      if v < 27 { v := (v + 27) % 256; }
      if v != 27 && v != 28 { return false; }
      var kordID := Ecrecover(hash, v, r, s);
      graphs := graphs[kordID := hash];
      ok := true;
    }
  }

  /** The test registry's map; its subscriptions belong to the Refresh module. */
  class TestRegistry {
    var hashes: map<Address, Hash>
    const recover: Recover

    constructor (recover: Recover)
      ensures hashes == map[] && this.recover == recover
    {
      hashes, this.recover := map[], recover;
    }

    method Graph(kordID: Address) returns (hash: Hash)
      ensures hash == HashAt(hashes, kordID)
    {
      hash := if kordID in hashes then hashes[kordID] else EMPTY_HASH;
    }

    /** crypto.SigToPub, then PubkeyToAddress. */
    method SigToAddress(hash: Hash, sig: Bytes) returns (a: Option<Address>)
      ensures a == TestEntry(recover, Publish(hash, sig))
    {
      if |sig| != 65 { return None; }
      if sig[64] >= 4 { return None; }
      a := recover(hash, sig[64] as nat, BigEndian(sig[..32]), BigEndian(sig[32..64]));
    }

    method SetGraph(hash: Hash, sig: Bytes) returns (ok: bool)
      modifies this
      ensures ok <==> TestEntry(recover, Publish(hash, sig)).Some?
      ensures hashes == Record(old(hashes), TestEntry(recover, Publish(hash, sig)), hash)
      ensures |sig| != 65 ==> !ok && hashes == old(hashes)
      ensures forall r, s, v :: IsSignature(sig, r, s, v) ==>
        && (ok <==> v < 4 && recover(hash, v as nat, r, s).Some?)
        && hashes == if ok then old(hashes)[recover(hash, v as nat, r, s).value := hash] else old(hashes)
    {
      forall r, s, v | IsSignature(sig, r, s, v) ensures |sig| == 65 && sig[64] == v
        && BigEndian(sig[..32]) == r && BigEndian(sig[32..64]) == s
      {
        SignatureParts(sig, r, s, v);
      }
      hide IsSignature;
      var kordID := SigToAddress(hash, sig);
      if kordID.None? { return false; }
      hashes := hashes[kordID.value := hash];
      ok := true;
    }
  }

  // --------------------------------------------------------------------- runs

  /** The ledger after a run of publications. */
  function Ledger(start: map<Address, Hash>, entry: Publish -> Option<Address>, ps: seq<Publish>): map<Address, Hash> {
    if ps == [] then start
    else Record(Ledger(start, entry, ps[..|ps| - 1]), entry(ps[|ps| - 1]), ps[|ps| - 1].hash)
  }

  predicate IsLast(entry: Publish -> Option<Address>, ps: seq<Publish>, a: Address, i: nat) {
    i < |ps| && entry(ps[i]) == Some(a) && forall j :: i < j < |ps| ==> entry(ps[j]) != Some(a)
  }

  predicate Never(entry: Publish -> Option<Address>, ps: seq<Publish>, a: Address) {
    forall j :: 0 <= j < |ps| ==> entry(ps[j]) != Some(a)
  }

  lemma IsLastSnoc(entry: Publish -> Option<Address>, ps: seq<Publish>, a: Address)
    requires ps != []
    ensures var n := |ps| - 1;
      if entry(ps[n]) == Some(a) then
        IsLast(entry, ps, a, n) && forall i: nat :: IsLast(entry, ps, a, i) ==> i == n
      else
        && (Never(entry, ps, a) <==> Never(entry, ps[..n], a))
        && (forall i: nat :: IsLast(entry, ps, a, i) <==> IsLast(entry, ps[..n], a, i))
  {
    var n := |ps| - 1;
    var before := ps[..n];
    assert forall j :: 0 <= j < n ==> before[j] == ps[j];
    if entry(ps[n]) == Some(a) {
      assert IsLast(entry, ps, a, n);
    } else {
      if Never(entry, before, a) {
        forall j | 0 <= j < |ps| ensures entry(ps[j]) != Some(a) { assert j < n ==> entry(before[j]) != Some(a); }
      }
      forall i: nat | IsLast(entry, before, a, i) ensures IsLast(entry, ps, a, i) {
        forall j | i < j < |ps| ensures entry(ps[j]) != Some(a) { assert j < n ==> entry(before[j]) != Some(a); }
      }
      forall i: nat | IsLast(entry, ps, a, i) ensures IsLast(entry, before, a, i) {
        forall j | i < j < n ensures entry(before[j]) != Some(a) { assert entry(ps[j]) != Some(a); }
      }
    }
  }

  /** Each entry holds the last hash published for it, or what it held before. */
  lemma {:induction false} LastWritePerSigner(start: map<Address, Hash>, entry: Publish -> Option<Address>,
          ps: seq<Publish>, a: Address)
    ensures forall i: nat :: IsLast(entry, ps, a, i) ==> HashAt(Ledger(start, entry, ps), a) == ps[i].hash
    ensures Never(entry, ps, a) ==> HashAt(Ledger(start, entry, ps), a) == HashAt(start, a)
    ensures Never(entry, ps, a) || exists i: nat :: IsLast(entry, ps, a, i)
  {
    if ps != [] {
      LastWritePerSigner(start, entry, ps[..|ps| - 1], a);
      IsLastSnoc(entry, ps, a);
      hide Never;
      if entry(ps[|ps| - 1]) != Some(a) {
        forall i: nat | IsLast(entry, ps, a, i) ensures HashAt(Ledger(start, entry, ps), a) == ps[i].hash {
          assert IsLast(entry, ps[..|ps| - 1], a, i) && ps[..|ps| - 1][i] == ps[i];
        }
      }
    }
  }

  /** When the contract and the test registry treat a publication alike, told by
      the length of the signature, its last byte, and whether it recovers. */
  predicate Alike(recover: Recover, p: Publish) {
    if |p.sig| != 65 then true
    else if p.sig[64] < 2 then SignerOf(recover, p, p.sig[64] as nat).Some?
    else if p.sig[64] < 4 then SignerOf(recover, p, p.sig[64] as nat).None?
    else p.sig[64] != 27 && p.sig[64] != 28
  }

  /** The stand-in is exact on a publication exactly in these cases. The others
      are signatures with last byte 2 or 3 that recover, 27 or 28, and those with
      0 or 1 that do not recover, which the contract books to the zero address. */
  lemma AlikeExactly(recover: Recover, p: Publish)
    ensures ContractEntry(recover, p) == TestEntry(recover, p) <==> Alike(recover, p)
  {
  }

  /** On a run treated alike throughout, in particular one of recoverable
      signatures with last byte 0 or 1, the two ledgers are equal. */
  lemma {:induction false} SameLedger(start: map<Address, Hash>, recover: Recover, ps: seq<Publish>)
    requires forall i :: 0 <= i < |ps| ==> Alike(recover, ps[i])
    ensures Ledger(start, p => ContractEntry(recover, p), ps) == Ledger(start, p => TestEntry(recover, p), ps)
  {
    if ps != [] {
      var before := ps[..|ps| - 1];
      forall i | 0 <= i < |before| ensures Alike(recover, before[i]) { assert before[i] == ps[i]; }
      SameLedger(start, recover, before);
      AlikeExactly(recover, ps[|ps| - 1]);
    }
  }

  /** The contract takes 27 and 28 for 0 and 1. */
  lemma OffsetIgnored(recover: Recover, hash: Hash, sig: Bytes)
    requires |sig| == 65 && sig[64] < 2
    ensures ContractEntry(recover, Publish(hash, sig)) == ContractEntry(recover, Publish(hash, sig[64 := sig[64] + 27]))
  {
    var shifted := sig[64 := sig[64] + 27];
    assert shifted[..32] == sig[..32] && shifted[32..64] == sig[32..64];
  }
}
