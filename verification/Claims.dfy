/**
 Claims (api/types.go, api/graphql.go): their identifiers, their form in the
 quad store, and the verify-before-write path of CreateClaim.
 */
module Claims {
  import opened Values
  import opened Hex

  /** The functions claims rest on. */
  datatype Crypto = Crypto(
    digest: Bytes -> Hash,
    recover: (Hash, Bytes) -> Option<Address>,
    keccak: string -> Digest32,
    junk: string -> Bytes)

  /** The digest is collision-free. */
  ghost predicate Ideal(w: Crypto) {
    forall a, b :: w.digest(a) == w.digest(b) ==> a == b
  }

  datatype Claim = Claim(issuer: Address, subject: Address, property: Bytes, text: Bytes, signature: Bytes)

  function Message(c: Claim): Bytes {
    c.issuer + c.subject + c.property + c.text
  }

  /** Claim.ID. */
  function ID(w: Crypto, c: Claim): Hash {
    w.digest(Message(c))
  }

  /** The identifier is the digest of bytes 0 to 19 issuer, 20 to 39 subject, and
      from 40 on property and claim. */
  lemma SignedBytes(w: Crypto, c: Claim, m: Bytes)
    requires |m| >= 40 && m[..20] == c.issuer && m[20..40] == c.subject && m[40..] == c.property + c.text
    ensures ID(w, c) == w.digest(m)
  {
    assert m == m[..20] + m[20..40] + m[40..];
    assert Message(c) == c.issuer + c.subject + (c.property + c.text);
  }

  datatype ClaimQuad = ClaimQuad(
    id: Hash, issuer: string, subject: string, property: Bytes, text: Bytes, signature: string)

  /** Claim.Quad. */
  function ToQuad(w: Crypto, c: Claim): ClaimQuad {
    ClaimQuad(ID(w, c), AddressHex(w.keccak, c.issuer), AddressHex(w.keccak, c.subject), c.property, c.text,
              Encode(c.signature))
  }

  /** claimQuad.ToClaim. */
  function ToClaim(w: Crypto, q: ClaimQuad): Claim {
    Claim(HexToAddress(w.junk, q.issuer), HexToAddress(w.junk, q.subject), q.property, q.text,
          FromHex(w.junk, q.signature))
  }

  /** verifyClaim. */
  predicate Verify(w: Crypto, c: Claim) {
    w.recover(ID(w, c), c.signature) == Some(c.issuer)
  }

  /** Storing a claim and reading it back gives the claim, so its identifier is
      the stored one and it verifies again if it did before. */
  lemma StorageRoundTrip(w: Crypto, c: Claim)
    ensures ToClaim(w, ToQuad(w, c)) == c
    ensures ID(w, ToClaim(w, ToQuad(w, c))) == ToQuad(w, c).id
    ensures Verify(w, ToClaim(w, ToQuad(w, c))) <==> Verify(w, c)
  {
    AddressRoundTrip(w.keccak, w.junk, c.issuer);
    AddressRoundTrip(w.keccak, w.junk, c.subject);
    FromHexEncode(w.junk, c.signature);
  }

  /** Two identifiers are equal exactly when issuer, subject and the property
      and claim run together are. */
  lemma SameID(w: Crypto, c: Claim, d: Claim)
    requires Ideal(w)
    ensures ID(w, c) == ID(w, d) <==>
      c.issuer == d.issuer && c.subject == d.subject && c.property + c.text == d.property + d.text
  {
    var m, n := Message(c), Message(d);
    assert m[..20] == c.issuer && m[20..40] == c.subject && m[40..] == c.property + c.text;
    assert n[..20] == d.issuer && n[20..40] == d.subject && n[40..] == d.property + d.text;
    assert m == m[..20] + m[20..40] + m[40..] && n == n[..20] + n[20..40] + n[40..];
  }

  /** Where the property ends is not part of the identifier, nor therefore of
      what is signed: moving the boundary keeps both. */
  lemma BoundaryUnsigned(w: Crypto, c: Claim, k: nat)
    requires k <= |c.property + c.text|
    ensures var moved := c.(property := (c.property + c.text)[..k], text := (c.property + c.text)[k..]);
      ID(w, moved) == ID(w, c) && (Verify(w, moved) <==> Verify(w, c))
  {
    var both := c.property + c.text;
    assert both[..k] + both[k..] == both;
    var moved := c.(property := both[..k], text := both[k..]);
    assert Message(moved) == c.issuer + c.subject + (both[..k] + both[k..]);
    assert Message(c) == c.issuer + c.subject + both;
  }

  // ------------------------------------------------------------ the quad store

  datatype Predicat = RdfType | Issuer | Subject | Property | Text | Signature

  datatype Object_ = ClaimClass | Iri(iri: string) | Str(bytes: Bytes) | HexStr(s: string)

  /** A quad of the graph, without a label. */
  datatype Triple = Triple(id: Hash, predicat: Predicat, object_: Object_)

  /** What a claim record has under a predicate. */
  function Field(q: ClaimQuad, p: Predicat): Object_ {
    match p
    case RdfType => ClaimClass
    case Issuer => Iri(q.issuer)
    case Subject => Iri(q.subject)
    case Property => Str(q.property)
    case Text => Str(q.text)
    case Signature => HexStr(q.signature)
  }

  predicate PartOf(t: Triple, q: ClaimQuad) {
    t.id == q.id && t.object_ == Field(q, t.predicat)
  }

  /** What schema.WriteAsQuads writes. */
  function Triples(q: ClaimQuad): (ts: set<Triple>)
    ensures forall t :: t in ts <==> PartOf(t, q)
  {
    var all := {RdfType, Issuer, Subject, Property, Text, Signature};
    set p | p in all :: Triple(q.id, p, Field(q, p))
  }

  /** The six quads of a claim. */
  lemma ClaimQuads(w: Crypto, c: Claim)
    ensures Triples(ToQuad(w, c)) == {
      Triple(ID(w, c), RdfType, ClaimClass),
      Triple(ID(w, c), Issuer, Iri(AddressHex(w.keccak, c.issuer))),
      Triple(ID(w, c), Subject, Iri(AddressHex(w.keccak, c.subject))),
      Triple(ID(w, c), Property, Str(c.property)),
      Triple(ID(w, c), Text, Str(c.text)),
      Triple(ID(w, c), Signature, HexStr(Encode(c.signature)))}
  {
    hide ID, AddressHex, Encode;
    var q := ToQuad(w, c);
    var all := {RdfType, Issuer, Subject, Property, Text, Signature};
    assert Triples(q) == set p | p in all :: Triple(q.id, p, Field(q, p));
  }

  /** The graph holds a claim record with these fields. */
  ghost predicate Holds(ts: set<Triple>, q: ClaimQuad) {
    forall t :: PartOf(t, q) ==> t in ts
  }

  ghost predicate AllVerify(w: Crypto, accepted: set<Claim>) {
    forall c :: c in accepted ==> Verify(w, c)
  }

  /** The graph holds the records of the claims accepted under this identifier,
      whatever else it holds: quads may be added to it, and deleted, without any
      check. */
  ghost predicate Covers(w: Crypto, ts: set<Triple>, accepted: set<Claim>, id: Hash) {
    forall c :: c in accepted && ID(w, c) == id ==> Holds(ts, ToQuad(w, c))
  }

  /** What the graph holds under this identifier came from accepted claims. */
  ghost predicate Clean(w: Crypto, ts: set<Triple>, accepted: set<Claim>, id: Hash) {
    forall t :: t in ts && t.id == id ==> exists c :: c in accepted && PartOf(t, ToQuad(w, c))
  }

  lemma Source(w: Crypto, ts: set<Triple>, accepted: set<Claim>, t: Triple) returns (c: Claim)
    requires Clean(w, ts, accepted, t.id) && t in ts
    ensures c in accepted && PartOf(t, ToQuad(w, c))
  {
    hide PartOf, ToQuad;
    c :| c in accepted && PartOf(t, ToQuad(w, c));
  }

  lemma FieldSource(w: Crypto, ts: set<Triple>, accepted: set<Claim>, q: ClaimQuad, p: Predicat) returns (c: Claim)
    requires Clean(w, ts, accepted, q.id) && Holds(ts, q)
    ensures c in accepted && ID(w, c) == q.id && Field(ToQuad(w, c), p) == Field(q, p)
  {
    c := Source(w, ts, accepted, Triple(q.id, p, Field(q, p)));
    hide Clean, Field;
  }

  /** The fields of a record found in the graph each come from an accepted claim
      with its identifier. */
  lemma FieldsAccepted(w: Crypto, ts: set<Triple>, accepted: set<Claim>, q: ClaimQuad)
    returns (a: Claim, b: Claim, s: Claim)
    requires Ideal(w) && Clean(w, ts, accepted, q.id) && Holds(ts, q)
    ensures {a, b, s} <= accepted && ID(w, a) == ID(w, b) == ID(w, s) == q.id
    ensures ToClaim(w, q) == Claim(a.issuer, a.subject, a.property, b.text, s.signature)
    ensures q == ToQuad(w, a).(text := b.text, signature := Encode(s.signature))
  {
    hide Clean, Holds, ID, AddressHex, Encode, FromHex, HexToAddress;
    a := FieldSource(w, ts, accepted, q, Property);
    b := FieldSource(w, ts, accepted, q, Text);
    s := FieldSource(w, ts, accepted, q, Signature);
    var i := FieldSource(w, ts, accepted, q, Issuer);
    var j := FieldSource(w, ts, accepted, q, Subject);
    SameID(w, a, i);
    SameID(w, a, j);
    StorageRoundTrip(w, a);
    StorageRoundTrip(w, s);
  }

  /** The fields of the record give its identifier. */
  predicate Fits(w: Crypto, q: ClaimQuad) {
    ID(w, ToClaim(w, q)) == q.id
  }

  /** Where what is under an identifier came from accepted claims, a record found
      there whose fields give that identifier carries a valid signature of its
      issuer. */
  lemma FoundVerifies(w: Crypto, ts: set<Triple>, accepted: set<Claim>, q: ClaimQuad)
    requires Ideal(w) && AllVerify(w, accepted) && Clean(w, ts, accepted, q.id) && Holds(ts, q)
    ensures Verify(w, ToClaim(w, q)) || !Fits(w, q)
  {
    var a, b, s := FieldsAccepted(w, ts, accepted, q);
    SameID(w, a, s);
    hide Holds;
    assert Verify(w, s);
  }

  /** Every record found under the identifier that fits it verifies. */
  ghost predicate AllFoundVerify(w: Crypto, ts: set<Triple>, id: Hash) {
    forall q :: Holds(ts, q) && q.id == id && Fits(w, q) ==> Verify(w, ToClaim(w, q))
  }

  /** Every signature under the identifier is one of it by the issuer. */
  ghost predicate AllSignaturesBy(w: Crypto, ts: set<Triple>, id: Hash, issuer: Address) {
    forall text :: Triple(id, Signature, HexStr(text)) in ts ==> w.recover(id, FromHex(w.junk, text)) == Some(issuer)
  }

  /** In any graph, whoever wrote to it: where some record fits, all fitting
      records verify if and only if every signature stored under the identifier
      is a signature of it by that record's issuer. */
  lemma FoundVerifiesExactly(w: Crypto, ts: set<Triple>, q: ClaimQuad)
    requires Ideal(w) && Holds(ts, q) && Fits(w, q)
    ensures AllFoundVerify(w, ts, q.id) <==> AllSignaturesBy(w, ts, q.id, HexToAddress(w.junk, q.issuer))
  {
    hide Holds, Ideal, HexToAddress, FromHex;
    var issuer := HexToAddress(w.junk, q.issuer);
    if AllFoundVerify(w, ts, q.id) {
      forall text | Triple(q.id, Signature, HexStr(text)) in ts
        ensures w.recover(q.id, FromHex(w.junk, text)) == Some(issuer)
      {
        OtherSignature(w, ts, q, text);
      }
    }
    if AllSignaturesBy(w, ts, q.id, issuer) {
      forall r | Holds(ts, r) && r.id == q.id && Fits(w, r) ensures Verify(w, ToClaim(w, r)) {
        SameIssuer(w, ts, q, r);
      }
    }
  }

  lemma SameIssuer(w: Crypto, ts: set<Triple>, q: ClaimQuad, r: ClaimQuad)
    requires Ideal(w) && Fits(w, q) && Fits(w, r) && r.id == q.id && Holds(ts, r)
    ensures HexToAddress(w.junk, q.issuer) == HexToAddress(w.junk, r.issuer)
    ensures Triple(r.id, Signature, HexStr(r.signature)) in ts
  {
    SameID(w, ToClaim(w, q), ToClaim(w, r));
    assert PartOf(Triple(r.id, Signature, HexStr(r.signature)), r);
  }

  /** A fitting record with another signature stored under its identifier is
      found too, and fits. */
  lemma OtherSignature(w: Crypto, ts: set<Triple>, q: ClaimQuad, text: string)
    requires Holds(ts, q) && Fits(w, q) && Triple(q.id, Signature, HexStr(text)) in ts
    ensures var r := q.(signature := text);
      Holds(ts, r) && Fits(w, r) && ToClaim(w, r) == ToClaim(w, q).(signature := FromHex(w.junk, text))
  {
    var r := q.(signature := text);
    forall t | PartOf(t, r) ensures t in ts {
      assert t.predicat != Signature ==> PartOf(t, q);
    }
  }

  /** A claim that does not verify can be written past writeClaim; it is then
      found, fits its identifier, and does not verify. */
  lemma UnverifiedFound(w: Crypto, ts: set<Triple>, c: Claim)
    requires !Verify(w, c)
    ensures var q, after := ToQuad(w, c), ts + Triples(ToQuad(w, c));
      Holds(after, q) && Fits(w, q) && !Verify(w, ToClaim(w, q)) && !AllFoundVerify(w, after, q.id)
  {
    StorageRoundTrip(w, c);
    var after := ts + Triples(ToQuad(w, c));
    assert Holds(after, ToQuad(w, c));
  }

  /** No two accepted claims with this identifier put the boundary between
      property and claim at different places. */
  ghost predicate OneBoundary(w: Crypto, accepted: set<Claim>, id: Hash) {
    forall c, d | c in accepted && d in accepted && ID(w, c) == id && ID(w, d) == id :: c.property == d.property
  }

  /** Only accepted claims are found under an identifier. */
  ghost predicate FindsAcceptedOnly(w: Crypto, ts: set<Triple>, accepted: set<Claim>, id: Hash) {
    forall q :: Holds(ts, q) && q.id == id ==> exists c :: c in accepted && q == ToQuad(w, c)
  }

  /** Where what is under an identifier came from accepted claims, every record
      that can be read back under it is one of them if and only if they agree on
      where the property ends. */
  lemma FoundExactly(w: Crypto, ts: set<Triple>, accepted: set<Claim>, id: Hash)
    requires Ideal(w) && Covers(w, ts, accepted, id) && Clean(w, ts, accepted, id)
    ensures FindsAcceptedOnly(w, ts, accepted, id) <==> OneBoundary(w, accepted, id)
  {
    hide ToQuad, Verify, Holds, ID, PartOf;
    if OneBoundary(w, accepted, id) {
      forall q | Holds(ts, q) && q.id == id ensures exists c :: c in accepted && q == ToQuad(w, c) {
        OneBoundaryFinds(w, ts, accepted, q);
      }
    } else {
      var c, d :| c in accepted && d in accepted && ID(w, c) == id && ID(w, d) == id && c.property != d.property;
      TwoBoundariesMix(w, ts, accepted, c, d);
    }
  }

  lemma OneBoundaryFinds(w: Crypto, ts: set<Triple>, accepted: set<Claim>, q: ClaimQuad)
    requires Ideal(w) && Clean(w, ts, accepted, q.id) && Holds(ts, q) && OneBoundary(w, accepted, q.id)
    ensures exists c :: c in accepted && q == ToQuad(w, c)
  {
    var a, b, s := FieldsAccepted(w, ts, accepted, q);
    hide Holds, Clean;
    SameID(w, a, s);
    SameID(w, b, s);
    assert a.property == s.property && b.property == s.property;
    SamePrefix(b.property, b.text, s.text);
    assert q == ToQuad(w, s);
  }

  lemma SamePrefix(p: Bytes, x: Bytes, y: Bytes)
    requires p + x == p + y
    ensures x == y
  {
    assert (p + x)[|p|..] == x && (p + y)[|p|..] == y;
  }

  lemma SameSuffix(p: Bytes, q: Bytes, x: Bytes)
    requires p + x == q + x
    ensures p == q
  {
    assert (p + x)[..|p|] == p && (q + x)[..|q|] == q;
  }

  lemma Mixed(w: Crypto, ts: set<Triple>, accepted: set<Claim>, c: Claim, d: Claim) returns (q: ClaimQuad)
    requires Covers(w, ts, accepted, ID(w, c)) && c in accepted && d in accepted && ID(w, c) == ID(w, d)
    ensures q == ToQuad(w, c).(text := d.text) && Holds(ts, q)
  {
    q := ToQuad(w, c).(text := d.text);
    assert Holds(ts, ToQuad(w, c)) && Holds(ts, ToQuad(w, d));
    hide Covers;
    forall t | PartOf(t, q) ensures t in ts {
      assert if t.predicat == Text then PartOf(t, ToQuad(w, d)) else PartOf(t, ToQuad(w, c));
    }
  }

  lemma TwoBoundariesMix(w: Crypto, ts: set<Triple>, accepted: set<Claim>, c: Claim, d: Claim)
    requires Ideal(w) && Covers(w, ts, accepted, ID(w, c)) && c in accepted && d in accepted
    requires ID(w, c) == ID(w, d) && c.property != d.property
    ensures !FindsAcceptedOnly(w, ts, accepted, ID(w, c))
  {
    var q := Mixed(w, ts, accepted, c, d);
    hide Holds, Covers;
    if e :| e in accepted && q == ToQuad(w, e) {
      SameID(w, c, e);
      SameID(w, c, d);
      SamePrefix(c.property, c.text, d.text);
      SameSuffix(c.property, d.property, c.text);
    }
  }

  /** Writing claim c adds its record, and under each identifier keeps the records
      of the accepted claims if they were there, and cleanness. */
  lemma WriteKeeps(w: Crypto, ts: set<Triple>, accepted: set<Claim>, c: Claim, id: Hash)
    ensures var more, all := ts + Triples(ToQuad(w, c)), accepted + {c};
      && Holds(more, ToQuad(w, c))
      && (Covers(w, ts, accepted, id) ==> Covers(w, more, all, id))
      && (Clean(w, ts, accepted, id) ==> Clean(w, more, all, id))
  {
    var more, all := ts + Triples(ToQuad(w, c)), accepted + {c};
    hide ToQuad, PartOf;
    if Clean(w, ts, accepted, id) {
      forall t | t in more && t.id == id ensures exists d :: d in all && PartOf(t, ToQuad(w, d)) {
        if t in ts {
          var d := Source(w, ts, accepted, t);
          assert d in all;
        } else {
          assert c in all;
        }
      }
    }
  }

  /** No deleted quad belongs to the record of a claim accepted under this
      identifier. */
  ghost predicate Spares(w: Crypto, accepted: set<Claim>, removed: set<Triple>, id: Hash) {
    forall c, t :: c in accepted && ID(w, c) == id && PartOf(t, ToQuad(w, c)) ==> t !in removed
  }

  /** An unverified write keeps the records of the claims accepted under an
      identifier exactly if it deletes none of their quads, and leaves it clean
      exactly if what remains there, old and new, is of accepted claims. */
  lemma ForeignKeeps(w: Crypto, ts: set<Triple>, accepted: set<Claim>, added: set<Triple>, removed: set<Triple>,
          id: Hash)
    ensures var after := ts + added - removed;
      && (Covers(w, ts, accepted, id) ==> (Covers(w, after, accepted, id) <==> Spares(w, accepted, removed, id)))
      && (Clean(w, after, accepted, id) <==>
            Clean(w, ts - removed, accepted, id) && Clean(w, added - removed, accepted, id))
  {
    hide ToQuad, PartOf, ID;
    var after := ts + added - removed;
    if Covers(w, ts, accepted, id) && Covers(w, after, accepted, id) {
      forall c, t | c in accepted && ID(w, c) == id && PartOf(t, ToQuad(w, c)) ensures t !in removed {
        assert Holds(after, ToQuad(w, c));
      }
    }
    if Covers(w, ts, accepted, id) && Spares(w, accepted, removed, id) {
      forall c | c in accepted && ID(w, c) == id ensures Holds(after, ToQuad(w, c)) {
        assert Holds(ts, ToQuad(w, c));
      }
    }
  }

  // --------------------------------------------------------------- the resolver

  /** A graph.QuadStore; `accepted` are the claims writeClaim wrote to it. */
  class QuadStore {
    var triples: set<Triple>
    ghost var accepted: set<Claim>

    constructor (triples: set<Triple>)
      ensures this.triples == triples && accepted == {}
    {
      this.triples, accepted := triples, {};
    }

    /** PublicAPI.ApplyDeltas (kord/api.go:55-64): any quads are added and then
        any deleted, unverified. */
    method ApplyDeltas(added: set<Triple>, removed: set<Triple>)
      modifies this`triples
      ensures triples == old(triples) + added - removed
    {
      triples := triples + added - removed;
    }
  }

  predicate NoRepeats(names: seq<string>) {
    forall i, j :: 0 <= i < j < |names| ==> names[i] != names[j]
  }

  /** graph.Driver, as far as it remembers the stores it has opened; `openings`
      are the names it has successfully opened a store for, in order. */
  class Driver {
    var stores: map<string, QuadStore>
    ghost var openings: seq<string>

    constructor ()
      ensures stores == map[] && Memo()
    {
      stores, openings := map[], [];
    }

    /** Each name in the memo was opened once, and no other was. */
    ghost predicate Memo()
      reads this
    {
      NoRepeats(openings) && forall name :: name in openings <==> name in stores
    }

    /** The store Get answers with, when opening the name would give `found`. */
    ghost function Target(name: string, found: Option<QuadStore>): Option<QuadStore>
      reads this
    {
      if name in stores then Some(stores[name]) else found
    }

    /** Driver.Get: an opened store is remembered and never replaced, so that over
        any sequence of calls no name is opened twice. */
    method Get(name: string, found: Option<QuadStore>) returns (store: Option<QuadStore>)
      requires Memo()
      modifies this
      ensures Memo()
      ensures store == old(Target(name, found))
      ensures openings == old(openings) + if name in old(stores) || found.None? then [] else [name]
      ensures store.Some? ==> name in stores && stores[name] == store.value
      ensures forall n :: n in old(stores) ==> n in stores && stores[n] == old(stores)[n]
      ensures forall n :: n in stores ==> n in old(stores) || n == name
    {
      if name in stores { return Some(stores[name]); }
      if found.None? { return None; }
      stores := stores[name := found.value];
      openings := openings + [name];
      store := found;
    }
  }

  datatype ClaimError = InvalidSignature | OpenFailed | FieldNotSet | WriteFailed | CommitFailed

  datatype ClaimInput = ClaimInput(
    graph: string, issuer: string, subject: string, property: Bytes, text: Bytes, signature: string)

  class Resolver {
    const driver: Driver
    const w: Crypto

    constructor (driver: Driver, w: Crypto)
      ensures this.driver == driver && this.w == w
    {
      this.driver, this.w := driver, w;
    }

    /** writeClaim, on a store with any contents; `found` is what opening the
        graph's store would give and `writes` whether the store applies the quads.
        Repeated quads are ignored. */
    method WriteClaim(id: string, claim: Claim, found: Option<QuadStore>,
            writes: bool) returns (err: Option<ClaimError>)
      requires driver.Memo()
      modifies driver, set s | driver.Target(id, found) == Some(s)
      ensures driver.Memo()
      ensures err.None? <==>
        Verify(w, claim) && old(driver.Target(id, found)).Some? && claim.property != [] && claim.text != [] && writes
      ensures (err == Some(InvalidSignature) <==> !Verify(w, claim)) && err != Some(CommitFailed)
      ensures err == Some(OpenFailed) <==> Verify(w, claim) && old(driver.Target(id, found)).None?
      ensures err == Some(FieldNotSet) <==>
        Verify(w, claim) && old(driver.Target(id, found)).Some? && (claim.property == [] || claim.text == [])
      ensures var s := old(driver.Target(id, found)); s.Some? ==>
        Written(s.value.triples, s.value.accepted, old(s.value.triples), old(s.value.accepted), claim, err.None?)
    {
      hide Verify, AddressHex, ID, Covers, Clean, Triples;
      if !Verify(w, claim) { return Some(InvalidSignature); }
      var store := driver.Get(id, found);
      if store.None? { return Some(OpenFailed); }
      var qs := store.value;
      var q := ToQuad(w, claim);
      if q.property == [] || q.text == [] { return Some(FieldNotSet); }
      if !writes { return Some(WriteFailed); }
      qs.triples := qs.triples + Triples(q);
      qs.accepted := qs.accepted + {claim};
      WrittenKeeps(old(qs.triples), old(qs.accepted), claim);
      err := None;
    }

    /** The claim's quads are added, or nothing is; either way accepted claims
        verify, their records are kept, and what was clean stays clean. */
    ghost predicate Written(ts': set<Triple>, accepted': set<Claim>, ts: set<Triple>, accepted: set<Claim>, c: Claim,
            ok: bool) {
      && ts' == (if ok then ts + Triples(ToQuad(w, c)) else ts)
      && accepted' == (if ok then accepted + {c} else accepted)
      && (AllVerify(w, accepted) ==> AllVerify(w, accepted'))
      && (forall id :: Covers(w, ts, accepted, id) ==> Covers(w, ts', accepted', id))
      && (forall id :: Clean(w, ts, accepted, id) ==> Clean(w, ts', accepted', id))
    }

    lemma WrittenKeeps(ts: set<Triple>, accepted: set<Claim>, c: Claim)
      requires Verify(w, c)
      ensures Written(ts + Triples(ToQuad(w, c)), accepted + {c}, ts, accepted, c, true)
    {
      hide Verify, ToQuad, Covers, Clean;
      var more, all := ts + Triples(ToQuad(w, c)), accepted + {c};
      forall id | Clean(w, ts, accepted, id) ensures Clean(w, more, all, id) { WriteKeeps(w, ts, accepted, c, id); }
      forall id | Covers(w, ts, accepted, id) ensures Covers(w, more, all, id) { WriteKeeps(w, ts, accepted, c, id); }
    }

    /** CreateClaim. A failing commit is reported although the claim is written. */
    method CreateClaim(input: ClaimInput, found: Option<QuadStore>, writes: bool, commits: bool)
      returns (claim: Claim, err: Option<ClaimError>)
      requires driver.Memo()
      modifies driver, set s | driver.Target(input.graph, found) == Some(s)
      ensures driver.Memo()
      ensures claim.issuer == HexToAddress(w.junk, input.issuer) && claim.subject == HexToAddress(w.junk, input.subject)
      ensures claim.property == input.property && claim.text == input.text
      ensures claim.signature == FromHex(w.junk, input.signature)
      ensures err.None? <==>
        && Verify(w, claim) && old(driver.Target(input.graph, found)).Some? && claim.property != [] && claim.text != []
        && writes && commits
      ensures var s := old(driver.Target(input.graph, found)); s.Some? ==>
        Written(s.value.triples, s.value.accepted, old(s.value.triples), old(s.value.accepted), claim,
                err in {None, Some(CommitFailed)})
    {
      hide Verify, ToQuad, Covers, Clean, Triples, HexToAddress, FromHex;
      claim := Claim(HexToAddress(w.junk, input.issuer), HexToAddress(w.junk, input.subject),
                     input.property, input.text, FromHex(w.junk, input.signature));
      err := WriteClaim(input.graph, claim, found, writes);
      if err.None? && !commits { err := Some(CommitFailed); }
    }
  }
}
