/** The part of the threshold-BLS provider (bls.TBLS and bls.Verifier) that the
    orchestration layer can observe. Its cryptography is not modelled: what the
    provider computes is supplied from outside, as a `DkgOutcome` per party or
    as the functions of a `Crypto` value. */
module Tbls {
  import opened Common

  /** One protocol message as handed to OnMsg. */
  datatype Message = Message(payload: Bytes, from: uint16, isBroadcast: bool)

  /** The send callback a party receives in Init: the closure built by
      createMessageHandler, which captures the owner's index and the shared
      party table. Invoking it is Keygen.Deliver. */
  datatype MessageHandler = MessageHandler(id: int, parties: seq<Party>)

  /** What the provider's KeyGen yields for one party: the share it returns and
      what ThresholdPK answers afterwards. */
  datatype DkgOutcome = DkgOutcome(share: Result<Bytes>, thresholdPK: Result<Bytes>)

  /** The provider's signing and verification capabilities. */
  datatype Crypto = Crypto(
    sign: (uint16, Option<Bytes>, Bytes) -> Result<Bytes>,       // TBLS.Sign by (party, share data, message)
    aggregate: (Bytes, seq<Bytes>, seq<uint16>) -> Result<Bytes>, // Verifier.AggregateSignatures under a key
    verify: (Bytes, Bytes, Bytes) -> bool)                       // Verifier.Verify(key, message, signature) == nil

  /** The parties are pairwise different objects. */
  predicate Distinct(parties: seq<Party>) {
    forall i, j :: 0 <= i < j < |parties| ==> parties[i] != parties[j]
  }

  /** One provider party handle, as far as the orchestration layer sees it. */
  class Party {
    /** The Party field, set when the handle is built. */
    const party: uint16
    /** The id list, threshold and send callback given to Init. */
    var ids: seq<uint16>
    var threshold: int
    var handler: Option<MessageHandler>
    /** Every OnMsg call this party received, oldest first. */
    var inbox: seq<Message>
    /** The share injected by SetShareData. */
    var shareData: Option<Bytes>
    /** What ThresholdPK answers; an error until KeyGen has run. */
    var thresholdPK: Result<Bytes>

    /** A fresh handle `&bls.TBLS{Party: uint16(id)}`. */
    constructor (id: int)
      ensures party == ToUint16(id)
      ensures ids == [] && threshold == 0 && handler == None
      ensures inbox == [] && shareData == None && thresholdPK == Err(ProviderFailure)
    {
      party := ToUint16(id);
      ids, threshold, handler := [], 0, None;
      inbox, shareData, thresholdPK := [], None, Err(ProviderFailure);
    }

    method Init(ids: seq<uint16>, threshold: int, handler: MessageHandler)
      modifies this`ids, this`threshold, this`handler
      ensures this.ids == ids && this.threshold == threshold && this.handler == Some(handler)
    {
      this.ids, this.threshold, this.handler := ids, threshold, Some(handler);
    }

    method OnMsg(payload: Bytes, from: uint16, isBroadcast: bool)
      modifies this`inbox
      ensures inbox == old(inbox) + [Message(payload, from, isBroadcast)]
    {
      inbox := inbox + [Message(payload, from, isBroadcast)];
    }

    method KeyGen(outcome: DkgOutcome) returns (share: Result<Bytes>)
      modifies this`thresholdPK
      ensures share == outcome.share && thresholdPK == outcome.thresholdPK
    {
      share := outcome.share;
      thresholdPK := outcome.thresholdPK;
    }

    method ThresholdPK() returns (pk: Result<Bytes>)
      ensures pk == thresholdPK
    {
      pk := thresholdPK;
    }

    method SetShareData(share: Bytes)
      modifies this`shareData
      ensures shareData == Some(share)
    {
      shareData := Some(share);
    }

    method Sign(c: Crypto, message: Bytes) returns (sig: Result<Bytes>)
      ensures sig == c.sign(party, shareData, message)
    {
      sig := c.sign(party, shareData, message);
    }
  }

  /** The signing tests expect every signature share to be 64 bytes long. */
  ghost predicate SharesAre64Bytes(c: Crypto) {
    forall p, s, m :: c.sign(p, s, m).Ok? ==> |c.sign(p, s, m).value| == 64
  }
}
