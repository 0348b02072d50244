/** Key generation: builds the parties, wires the simulated network between
    them, collects the shares of a DKG run and shapes the key-share record. */
module Keygen {
  import opened Common
  import opened Tbls

  /** One entry of the persisted key-share record. */
  datatype KeyShare = KeyShare(PartyID: int, Share: string)

  /** The persisted key-share record, field by field. */
  datatype KeyShares = KeyShares(TotalParties: int, Threshold: int, ThresholdPK: string, Shares: seq<KeyShare>)

  // ---------------------------------------------------------------------------
  // The simulated network

  /** Whether party `i` receives what the handler of party `id` sends. */
  predicate Receives(i: int, id: int, isBroadcast: bool, to: uint16) {
    if isBroadcast then i != id else i == to as int
  }

  /** The parties among the first `n`, other than `id`, in ascending order. */
  function Others(n: nat, id: int): (r: seq<nat>) {
    if n == 0 then [] else Others(n - 1, id) + (if n - 1 != id then [n - 1] else [])
  }

  /** The indices on which a send reaches OnMsg, in call order. */
  function Recipients(n: nat, id: int, isBroadcast: bool, to: uint16): (r: seq<nat>) {
    if isBroadcast then Others(n, id) else [to as nat]
  }

  /** A broadcast names only existing parties, in strictly ascending order,
      and one fewer than the table when the sender is in it. */
  lemma {:induction false} OthersAscending(n: nat, id: int)
    ensures forall k :: 0 <= k < |Others(n, id)| ==> Others(n, id)[k] < n
    ensures forall a, b :: 0 <= a < b < |Others(n, id)| ==> Others(n, id)[a] < Others(n, id)[b]
    ensures |Others(n, id)| == if 0 <= id < n then n - 1 else n
  {
    if n > 0 {
      OthersAscending(n - 1, id);
    }
  }

  /** A broadcast reaches party `i` if and only if `i` is not the sender. */
  lemma {:induction false} OthersAreNonSenders(n: nat, id: int)
    ensures forall i: nat :: i < n ==> (i in Others(n, id) <==> i != id)
    ensures forall i: nat :: i in Others(n, id) ==> i < n
  {
    if n > 0 {
      OthersAreNonSenders(n - 1, id);
      assert Others(n, id) == Others(n - 1, id) + (if n - 1 != id then [n - 1] else []);
    }
  }

  /** Every send reaches exactly the parties that `Receives` names, in
      ascending order and so never twice. */
  lemma RecipientsAreReceivers(n: nat, id: int, isBroadcast: bool, to: uint16)
    requires !isBroadcast ==> (to as int) < n
    ensures forall i: nat :: i < n ==> (i in Recipients(n, id, isBroadcast, to) <==> Receives(i, id, isBroadcast, to))
    ensures forall i: nat :: i in Recipients(n, id, isBroadcast, to) ==> i < n
    ensures forall a, b :: 0 <= a < b < |Recipients(n, id, isBroadcast, to)| ==>
      Recipients(n, id, isBroadcast, to)[a] < Recipients(n, id, isBroadcast, to)[b]
  {
    OthersAscending(n, id);
    OthersAreNonSenders(n, id);
  }

  /** Invoking the send callback `h`: a broadcast calls OnMsg on every other
      party in index order, a point-to-point message only on party `to`. Each
      delivery is tagged with uint16(h.id) and carries the payload and flag
      unchanged. `order` lists the indices OnMsg was called on. */
  method Deliver(h: MessageHandler, msg: Bytes, isBroadcast: bool, to: uint16) returns (ghost order: seq<nat>)
    requires Distinct(h.parties)
    requires !isBroadcast ==> (to as int) < |h.parties|
    modifies (set p | p in h.parties)`inbox
    ensures order == Recipients(|h.parties|, h.id, isBroadcast, to)
    ensures forall i :: 0 <= i < |h.parties| ==>
      h.parties[i].inbox == old(h.parties[i].inbox) +
        (if Receives(i, h.id, isBroadcast, to) then [Message(msg, ToUint16(h.id), isBroadcast)] else [])
  {
    var parties := h.parties;
    var idUint16 := ToUint16(h.id);
    if isBroadcast {
      order := [];
      for i := 0 to |parties|
        invariant order == Others(i, h.id)
        invariant forall j :: 0 <= j < |parties| ==>
          parties[j].inbox == old(parties[j].inbox) +
            (if j < i && j != h.id then [Message(msg, idUint16, isBroadcast)] else [])
      {
        if i != h.id {
          parties[i].OnMsg(msg, idUint16, isBroadcast);
          order := order + [i];
        }
      }
    } else {
      parties[to].OnMsg(msg, idUint16, isBroadcast);
      order := [to as nat];
    }
  }

  // ---------------------------------------------------------------------------
  // Party identities

  /** The id list of `n` parties built by GenerateTBLSParties. */
  function IdList(n: nat): (ids: seq<uint16>) {
    seq(n, i => ToUint16(i))
  }

  /** Up to 65536 parties, the id list is 0, 1, ..., n-1 and has no repeats. */
  lemma IdListDense(n: nat)
    requires n <= 0x1_0000
    ensures |IdList(n)| == n
    ensures forall i :: 0 <= i < n ==> IdList(n)[i] as int == i
    ensures forall i, j :: 0 <= i < j < n ==> IdList(n)[i] != IdList(n)[j]
  {
  }

  /** Beyond 65536 parties the truncating conversion hands out a repeated id. */
  lemma IdListWraps(n: nat)
    requires n > 0x1_0000
    ensures IdList(n)[0x1_0000] == IdList(n)[0]
  {
  }

  /** getIDs: the Party field of every party, in order. */
  method GetIDs(parties: seq<Party>) returns (ids: seq<uint16>)
    ensures |ids| == |parties|
    ensures forall i :: 0 <= i < |parties| ==> ids[i] == parties[i].party
  {
    ids := seq(|parties|, _ => 0);
    for i := 0 to |parties|
      invariant |ids| == |parties|
      invariant forall j :: 0 <= j < i ==> ids[j] == parties[j].party
    {
      ids := ids[i := parties[i].party];
    }
  }

  /** The state of `parties` right after generateTBLSParties(n, threshold):
      party i has id uint16(i), every party was given the same id list and
      threshold, and its callback is bound to its own index over this table. */
  ghost predicate Ready(parties: seq<Party>, n: nat, threshold: int)
    reads parties
  {
    && |parties| == n
    && Distinct(parties)
    && forall i :: 0 <= i < n ==>
         && parties[i].party == ToUint16(i)
         && parties[i].ids == IdList(n)
         && parties[i].threshold == threshold
         && parties[i].handler == Some(MessageHandler(i, parties))
         && parties[i].inbox == []
         && parties[i].shareData == None
         && parties[i].thresholdPK == Err(ProviderFailure)
  }

  /** initTBLSParty: Init party `id` with the shared id list, the threshold and
      a callback bound to `id`. */
  method InitTBLSParty(id: nat, parties: seq<Party>, threshold: int)
    requires id < |parties|
    modifies {parties[id]}`ids, {parties[id]}`threshold, {parties[id]}`handler
    ensures parties[id].threshold == threshold && parties[id].handler == Some(MessageHandler(id, parties))
    ensures |parties[id].ids| == |parties|
    ensures forall j :: 0 <= j < |parties| ==> parties[id].ids[j] == parties[j].party
  {
    var ids := GetIDs(parties);
    parties[id].Init(ids, threshold, MessageHandler(id, parties));
  }

  /** generateTBLSParties: n fresh parties, numbered 0..n-1 and initialised. */
  method GenerateTBLSParties(n: nat, threshold: int) returns (parties: seq<Party>)
    ensures Ready(parties, n, threshold)
    ensures forall i :: 0 <= i < n ==> fresh(parties[i])
  {
    parties := [];
    for i := 0 to n
      invariant |parties| == i && Distinct(parties)
      invariant forall j :: 0 <= j < i ==> fresh(parties[j])
      invariant forall j :: 0 <= j < i ==>
        && parties[j].party == ToUint16(j) && parties[j].handler == None
        && parties[j].inbox == [] && parties[j].shareData == None
        && parties[j].thresholdPK == Err(ProviderFailure)
    {
      var p := new Party(i);
      parties := parties + [p];
    }
    for i := 0 to n
      invariant forall j :: 0 <= j < n ==> fresh(parties[j])
      invariant forall j :: 0 <= j < n ==>
        && parties[j].inbox == [] && parties[j].shareData == None
        && parties[j].thresholdPK == Err(ProviderFailure)
      invariant forall j :: 0 <= j < i ==>
        && parties[j].ids == IdList(n) && parties[j].threshold == threshold
        && parties[j].handler == Some(MessageHandler(j, parties))
    {
      InitTBLSParty(i, parties, threshold);
      assert parties[i].ids == IdList(n);
    }
  }

  // ---------------------------------------------------------------------------
  // Collecting the shares of a DKG run

  /** The slot a party's KeyGen result leaves: its share, or nil on failure. */
  function Slot(share: Result<Bytes>): (slot: Option<Bytes>) {
    if share.Ok? then Some(share.value) else None
  }

  /** generateShares, with the one goroutine per party run one after another:
      slot i is written by party i alone, with its share on success and left
      nil on failure; every party keeps the threshold key its DKG produced. */
  method GenerateSharesFor(parties: seq<Party>, outcomes: seq<DkgOutcome>) returns (shares: seq<Option<Bytes>>)
    requires Distinct(parties) && |outcomes| == |parties|
    modifies (set p | p in parties)`thresholdPK
    ensures |shares| == |parties|
    ensures forall i :: 0 <= i < |parties| ==>
      shares[i] == Slot(outcomes[i].share) && parties[i].thresholdPK == outcomes[i].thresholdPK
  {
    shares := seq(|parties|, _ => None);
    for i := 0 to |parties|
      invariant |shares| == |parties|
      invariant forall j :: 0 <= j < i ==>
        shares[j] == Slot(outcomes[j].share) && parties[j].thresholdPK == outcomes[j].thresholdPK
      invariant forall j :: i <= j < |parties| ==> shares[j] == None
    {
      var share := parties[i].KeyGen(outcomes[i]);
      if share.Ok? {
        shares := shares[i := Some(share.value)];
      }
    }
  }

  // ---------------------------------------------------------------------------
  // The key-share record

  /** The bytes a slot is encoded from: a nil share encodes like an empty one. */
  function SlotBytes(slot: Option<Bytes>): (b: Bytes) {
    if slot.Some? then slot.value else []
  }

  /** `ks` is the record SaveKeysToYAML builds from these inputs: threshold,
      total, the encoded key, and entry i = {PartyID: i, Share: encode(shares[i])}. */
  predicate Describes(ks: KeyShares, threshold: int, n: int, pk: Bytes, shares: seq<Option<Bytes>>, codec: Base64) {
    && ks.Threshold == threshold
    && ks.TotalParties == n
    && ks.ThresholdPK == codec.encode(pk)
    && |ks.Shares| == |shares|
    && forall i :: 0 <= i < |shares| ==> ks.Shares[i] == KeyShare(i, codec.encode(SlotBytes(shares[i])))
  }

  /** Reading a built record back gives the key, and each party's share under
      its own index; a failed (nil) share comes back as the empty share. */
  lemma DescribedRecordDecodes(ks: KeyShares, threshold: int, n: int, pk: Bytes, shares: seq<Option<Bytes>>, codec: Base64)
    requires RoundTrips(codec) && Describes(ks, threshold, n, pk, shares, codec)
    ensures codec.decode(ks.ThresholdPK) == Some(pk)
    ensures forall i :: 0 <= i < |shares| ==>
      ks.Shares[i].PartyID == i && codec.decode(ks.Shares[i].Share) == Some(SlotBytes(shares[i]))
    ensures forall i :: 0 <= i < |shares| && shares[i] == None ==> codec.decode(ks.Shares[i].Share) == Some([])
  {
  }

  /** The Keygen object: the parameters of one DKG run and its parties and shares. */
  class Keygen {
    const n: int
    const threshold: int
    var parties: seq<Party>
    var shares: seq<Option<Bytes>>

    ghost predicate Valid()
      reads this
    {
      Distinct(parties)
    }

    /** NewKeygen */
    constructor (n: int, threshold: int)
      ensures this.n == n && this.threshold == threshold
      ensures parties == [] && shares == [] && Valid()
    {
      this.n, this.threshold := n, threshold;
      parties, shares := [], [];
    }

    method GenerateParties()
      requires 0 <= n
      modifies this`parties
      ensures Valid() && Ready(parties, n, threshold)
      ensures forall i :: 0 <= i < n ==> fresh(parties[i])
    {
      parties := GenerateTBLSParties(n, threshold);
    }

    method GenerateShares(outcomes: seq<DkgOutcome>)
      requires Valid() && |outcomes| == |parties|
      modifies this`shares, (set p | p in parties)`thresholdPK
      ensures Valid() && |shares| == |parties|
      ensures forall i :: 0 <= i < |parties| ==>
        shares[i] == Slot(outcomes[i].share) && parties[i].thresholdPK == outcomes[i].thresholdPK
    {
      shares := GenerateSharesFor(parties, outcomes);
    }

    /** GetPk: party `id`'s threshold key, or nil when the provider errs. */
    method GetPk(id: int) returns (pk: Option<Bytes>)
      requires 0 <= id < |parties|
      ensures pk.Some? <==> parties[id].thresholdPK.Ok?
      ensures pk.Some? ==> pk.value == parties[id].thresholdPK.value
    {
      var r := parties[id].ThresholdPK();
      if r.Err? {
        return None;
      }
      return Some(r.value);
    }

    /** SaveKeysToYAML up to marshalling: fails with no parties or when party 0
        has no threshold key, before anything is built; otherwise returns the
        record that is written out. No entry is checked for a failed share. */
    method SaveKeysToYAML(codec: Base64) returns (r: Result<KeyShares>)
      requires |parties| > 0 && parties[0].thresholdPK.Ok? ==> |shares| >= |parties|
      ensures |parties| == 0 ==> r == Err(NoParties)
      ensures |parties| > 0 && parties[0].thresholdPK.Err? ==> r == Err(ThresholdPKUnavailable)
      ensures |parties| > 0 && parties[0].thresholdPK.Ok? ==>
        r.Ok? && Describes(r.value, threshold, n, parties[0].thresholdPK.value, shares[..|parties|], codec)
    {
      if |parties| == 0 {
        return Err(NoParties);
      }
      var pk := parties[0].ThresholdPK();
      if pk.Err? {
        return Err(ThresholdPKUnavailable);
      }
      var entries := seq(|parties|, _ => KeyShare(0, ""));
      for i := 0 to |parties|
        invariant |entries| == |parties|
        invariant forall j :: 0 <= j < i ==> entries[j] == KeyShare(j, codec.encode(SlotBytes(shares[j])))
      {
        entries := entries[i := KeyShare(i, codec.encode(SlotBytes(shares[i])))];
      }
      r := Ok(KeyShares(n, threshold, codec.encode(pk.value), entries));
    }
  }
}
