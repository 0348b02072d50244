/** Signing: rebuilds one party from a key-share record and signs with it. */
module Sign {
  import opened Common
  import opened Tbls
  import K = Keygen

  /** The sign package's own copy of the key-share record types. */
  datatype KeyShare = KeyShare(PartyID: int, Share: string)
  datatype KeyShares = KeyShares(TotalParties: int, Threshold: int, ThresholdPK: string, Shares: seq<KeyShare>)

  /** What a Signer keeps of its configuration. */
  datatype SignerConfig = SignerConfig(n: int, threshold: int, partyId: int, share: Bytes)

  /** What NewSigner makes of a configuration that was read and parsed (or
      failed to be): nothing on a read or parse failure, an empty share list or
      an undecodable first share; otherwise the totals and the first entry. */
  function LoadSigner(parsed: Result<KeyShares>, codec: Base64): (cfg: Option<SignerConfig>) {
    if parsed.Err? || |parsed.value.Shares| == 0 then None
    else
      var ks := parsed.value;
      match codec.decode(ks.Shares[0].Share)
      case None => None
      case Some(share) => Some(SignerConfig(ks.TotalParties, ks.Threshold, ks.Shares[0].PartyID, share))
  }

  /** A configuration that cannot be read or parsed, or has no shares, gives no signer. */
  lemma LoadSignerRejects(parsed: Result<KeyShares>, codec: Base64)
    requires parsed.Err? || parsed.value.Shares == []
    ensures LoadSigner(parsed, codec) == None
  {
  }

  /** Only the first entry is used: records that agree on the totals and on
      their first entry give the same signer, whatever else they hold. */
  lemma LoadSignerReadsFirstShareOnly(a: KeyShares, b: KeyShares, codec: Base64)
    requires a.TotalParties == b.TotalParties && a.Threshold == b.Threshold
    requires |a.Shares| > 0 && |b.Shares| > 0 && a.Shares[0] == b.Shares[0]
    ensures LoadSigner(Ok(a), codec) == LoadSigner(Ok(b), codec)
  {
  }

  /** On success the signer's totals are the record's, and its party id and
      share are those of the first entry, the share decoded; a first share that
      does not decode gives no signer. */
  lemma LoadSignerFields(ks: KeyShares, codec: Base64)
    requires |ks.Shares| > 0
    ensures LoadSigner(Ok(ks), codec).Some? <==> codec.decode(ks.Shares[0].Share).Some?
    ensures LoadSigner(Ok(ks), codec).Some? ==>
      var cfg := LoadSigner(Ok(ks), codec).value;
      && cfg.n == ks.TotalParties && cfg.threshold == ks.Threshold
      && cfg.partyId == ks.Shares[0].PartyID
      && codec.decode(ks.Shares[0].Share) == Some(cfg.share)
  {
  }

  /** The keygen record read field by field into the sign package's type. */
  function FromKeygenRecord(ks: K.KeyShares): (r: KeyShares) {
    KeyShares(ks.TotalParties, ks.Threshold, ks.ThresholdPK,
              seq(|ks.Shares|, i requires 0 <= i < |ks.Shares| => KeyShare(ks.Shares[i].PartyID, ks.Shares[i].Share)))
  }

  /** A signer loaded from a record that SaveKeysToYAML built is always party 0,
      holding party 0's share (empty if its key generation failed), with the
      record's totals. */
  lemma SignerFromSavedRecord(ks: K.KeyShares, threshold: int, n: int, pk: Bytes,
                              shares: seq<Option<Bytes>>, codec: Base64)
    requires RoundTrips(codec) && K.Describes(ks, threshold, n, pk, shares, codec)
    requires |shares| > 0
    ensures LoadSigner(Ok(FromKeygenRecord(ks)), codec) == Some(SignerConfig(n, threshold, 0, K.SlotBytes(shares[0])))
  {
    K.DescribedRecordDecodes(ks, threshold, n, pk, shares, codec);
  }

  /** A party reconstructed from one share. */
  class Signer {
    var n: int
    var threshold: int
    var partyId: int
    var party: Party?
    var share: Bytes

    /** The zero value `var signer Signer`. */
    constructor ()
      ensures n == 0 && threshold == 0 && partyId == 0 && party == null && share == []
    {
      n, threshold, partyId, party, share := 0, 0, 0, null, [];
    }

    ghost function Config(): SignerConfig
      reads this
    {
      SignerConfig(n, threshold, partyId, share)
    }

    /** Sign: the provider's signature share passed through unchanged, or its
        error; a 64-byte share under the signing tests' expectation. */
    method Sign(c: Crypto, message: Bytes) returns (sig: Result<Bytes>)
      requires party != null
      ensures sig == c.sign(party.party, party.shareData, message)
      ensures SharesAre64Bytes(c) && sig.Ok? ==> |sig.value| == 64
    {
      var s := party.Sign(c, message);
      if s.Err? {
        return Err(s.error);
      }
      return Ok(s.value);
    }
  }

  /** NewSigner, once the file has been read and parsed into `parsed`: nil
      exactly when LoadSigner gives nothing; otherwise a fresh signer whose
      fresh party has id uint16(partyId) and the decoded share injected, and
      has taken part in no key generation. */
  method NewSigner(parsed: Result<KeyShares>, codec: Base64) returns (s: Signer?)
    ensures s == null <==> LoadSigner(parsed, codec) == None
    ensures s != null ==>
      && fresh(s) && s.party != null && fresh(s.party)
      && LoadSigner(parsed, codec) == Some(s.Config())
      && s.party.party == ToUint16(s.partyId)
      && s.party.shareData == Some(s.share)
      && s.party.handler == None && s.party.inbox == []
  {
    if parsed.Err? {
      return null;
    }
    var ks := parsed.value;
    if |ks.Shares| == 0 {
      return null;
    }
    var signer := new Signer();
    signer.n := ks.TotalParties;
    signer.threshold := ks.Threshold;
    var decoded := codec.decode(ks.Shares[0].Share);
    if decoded.None? {
      return null;
    }
    signer.share := decoded.value;
    signer.partyId := ks.Shares[0].PartyID;
    var party := new Party(signer.partyId);
    signer.party := party;
    party.SetShareData(signer.share);
    return signer;
  }
}
