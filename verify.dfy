/** Verification: loads the threshold key, aggregates signature shares and
    answers accept or reject. */
module Verify {
  import opened Common
  import opened Tbls

  /** The verify package's signature-share record types. */
  datatype SigShare = SigShare(PartyID: int, Sig: string)
  datatype SigShares = SigShares(TotalParties: int, Threshold: int, ThresholdPK: string, Sigs: seq<SigShare>)

  /** The provider's verifier after Init(pk). */
  datatype BlsVerifier = BlsVerifier(pk: Bytes)

  datatype Verifier = Verifier(v: BlsVerifier, thresholdPK: Bytes)

  /** NewVerifier, once the file has been read and parsed into `parsed`: nil on
      a read or parse failure or an undecodable key; otherwise a verifier
      initialised with the decoded key. */
  function NewVerifier(parsed: Result<SigShares>, codec: Base64): (r: Option<Verifier>) {
    if parsed.Err? then None
    else
      match codec.decode(parsed.value.ThresholdPK)
      case None => None
      case Some(pk) => Some(Verifier(BlsVerifier(pk), pk))
  }

  /** Whatever a readable record's key decodes to is stored, both as the
      verifier's own copy and as the key the provider verifier is initialised
      with; decoding need not be of a canonical encoding. */
  lemma NewVerifierKeepsDecodedKey(ks: SigShares, pk: Bytes, codec: Base64)
    requires codec.decode(ks.ThresholdPK) == Some(pk)
    ensures NewVerifier(Ok(ks), codec) == Some(Verifier(BlsVerifier(pk), pk))
  {
  }

  /** The verifier built from a record whose key was encoded from `pk` holds `pk`. */
  lemma NewVerifierRecoversKey(ks: SigShares, pk: Bytes, codec: Base64)
    requires RoundTrips(codec) && ks.ThresholdPK == codec.encode(pk)
    ensures NewVerifier(Ok(ks), codec) == Some(Verifier(BlsVerifier(pk), pk))
  {
    NewVerifierKeepsDecodedKey(ks, pk, codec);
  }

  /** No verifier comes from an unreadable record or an undecodable key. */
  lemma NewVerifierRejects(parsed: Result<SigShares>, codec: Base64)
    requires parsed.Err? || codec.decode(parsed.value.ThresholdPK) == None
    ensures NewVerifier(parsed, codec) == None
  {
  }

  function AggregateSignatures(v: Verifier, c: Crypto, sigs: seq<Bytes>, ids: seq<uint16>): (r: Result<Bytes>) {
    if |sigs| == 0 || |ids| == 0 then Err(EmptySigsOrIds)
    else c.aggregate(v.v.pk, sigs, ids)
  }

  function Verify(v: Verifier, c: Crypto, msg: Bytes, sigs: seq<Bytes>, ids: seq<uint16>): (ok: bool) {
    match AggregateSignatures(v, c, sigs, ids)
    case Err(_) => false
    case Ok(sig) => c.verify(v.v.pk, msg, sig)
  }

  /** The provider aggregates these shares under `pk` and accepts the result for `msg`. */
  predicate ProviderAccepts(c: Crypto, pk: Bytes, msg: Bytes, sigs: seq<Bytes>, ids: seq<uint16>) {
    c.aggregate(pk, sigs, ids).Ok? && c.verify(pk, msg, c.aggregate(pk, sigs, ids).value)
  }

  /** Empty input fails before the provider is asked, and never verifies. */
  lemma EmptyInputRejected(v: Verifier, c: Crypto, msg: Bytes, sigs: seq<Bytes>, ids: seq<uint16>)
    requires sigs == [] || ids == []
    ensures AggregateSignatures(v, c, sigs, ids) == Err(EmptySigsOrIds)
    ensures !Verify(v, c, msg, sigs, ids)
  {
  }

  /** Non-empty input goes to the provider unchanged: there is no check that
      the lengths agree or that the ids are distinct. */
  lemma AggregationForwarded(v: Verifier, c: Crypto, sigs: seq<Bytes>, ids: seq<uint16>)
    requires sigs != [] && ids != []
    ensures AggregateSignatures(v, c, sigs, ids) == c.aggregate(v.v.pk, sigs, ids)
  {
  }

  /** Verify accepts exactly when the input is non-empty and the provider both
      aggregates and verifies; any failure of either is a plain `false`. */
  lemma VerifyAcceptsIff(v: Verifier, c: Crypto, msg: Bytes, sigs: seq<Bytes>, ids: seq<uint16>)
    ensures Verify(v, c, msg, sigs, ids) <==> sigs != [] && ids != [] && ProviderAccepts(c, v.v.pk, msg, sigs, ids)
    ensures AggregateSignatures(v, c, sigs, ids).Err? ==> !Verify(v, c, msg, sigs, ids)
    ensures (AggregateSignatures(v, c, sigs, ids).Ok? &&
             !c.verify(v.v.pk, msg, AggregateSignatures(v, c, sigs, ids).value)) ==> !Verify(v, c, msg, sigs, ids)
  {
  }

  /** The provider behaviour the verification tests pin down, for four parties
      with threshold three whose shares of `msg` are `s`: the full set and
      every tested three-party set are accepted; every tested pair and the set
      with party 0 twice are rejected. */
  ghost predicate ProviderAsTested(c: Crypto, pk: Bytes, msg: Bytes, s: seq<Bytes>)
    requires |s| == 4
  {
    && ProviderAccepts(c, pk, msg, s, [0, 1, 2, 3])
    && ProviderAccepts(c, pk, msg, [s[0], s[1], s[2]], [0, 1, 2])
    && ProviderAccepts(c, pk, msg, [s[1], s[2], s[3]], [1, 2, 3])
    && ProviderAccepts(c, pk, msg, [s[0], s[1], s[3]], [0, 1, 3])
    && ProviderAccepts(c, pk, msg, [s[0], s[2], s[3]], [0, 2, 3])
    && !ProviderAccepts(c, pk, msg, [s[0], s[0], s[1]], [0, 0, 1])
    && !ProviderAccepts(c, pk, msg, [s[0], s[1]], [0, 1])
    && !ProviderAccepts(c, pk, msg, [s[0], s[2]], [0, 2])
    && !ProviderAccepts(c, pk, msg, [s[0], s[3]], [0, 3])
    && !ProviderAccepts(c, pk, msg, [s[2], s[3]], [2, 3])
  }

  /** With such a provider, Verify gives every outcome the tests assert, and
      the sub-slices the tests take of the full lists are the sets above. */
  lemma VerifyAsTested(v: Verifier, c: Crypto, msg: Bytes, s: seq<Bytes>)
    requires |s| == 4 && ProviderAsTested(c, v.v.pk, msg, s)
    ensures Verify(v, c, msg, s, [0, 1, 2, 3])
    ensures Verify(v, c, msg, s[..3], [0, 1, 2, 3][..3])
    ensures Verify(v, c, msg, s[1..], [0, 1, 2, 3][1..])
    ensures Verify(v, c, msg, [s[0], s[1], s[3]], [0, 1, 3])
    ensures Verify(v, c, msg, [s[0], s[2], s[3]], [0, 2, 3])
    ensures !Verify(v, c, msg, [s[0], s[0], s[1]], [0, 0, 1])
    ensures !Verify(v, c, msg, [s[0], s[1]], [0, 1])
    ensures !Verify(v, c, msg, [s[0], s[2]], [0, 2])
    ensures !Verify(v, c, msg, [s[0], s[3]], [0, 3])
    ensures !Verify(v, c, msg, [s[2], s[3]], [2, 3])
  {
    var ids: seq<uint16> := [0, 1, 2, 3];
    assert s[..3] == [s[0], s[1], s[2]] && ids[..3] == [0, 1, 2];
    assert s[1..] == [s[1], s[2], s[3]] && ids[1..] == [1, 2, 3];
  }
}
