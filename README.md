# Threshold-BLS orchestration, modelled in Dafny

This project models the orchestration layer of a (n, t)-threshold BLS demo
written in Go over the IBM TSS `bls` provider. It has three packages:

- **keygen** builds `n` provider parties with ids `0..n-1` and initialises each
  with the shared id list, the threshold and a send callback that routes
  protocol messages between parties in memory. It runs every party's key
  generation, collects the shares and shapes the key-share record
  (threshold, total, base64 threshold key, one `(party_id, share)` entry per
  party).
- **sign** rebuilds one party from a parsed key-share record (from its first
  entry only) and signs by passing through to the provider.
- **verify** decodes the threshold key, rejects empty input, passes
  aggregation to the provider and turns every failure the provider
  returns into `false`.

The provider's cryptography is not modelled. Its party handle is the class
`Tbls.Party`, which keeps only what the orchestration layer can observe: its
id, what `Init` was given, the messages `OnMsg` received, the injected share
and the threshold key. What the provider computes comes in as a value: a
`DkgOutcome` per party for key generation, and a `Crypto` value holding the
sign, aggregate and verify functions. Base64 (RFC 4648, section 4) is an
abstract `encode`/`decode` pair, and `RoundTrips` states that decoding an
encoding gives the bytes back. File reading and YAML parsing become a
`Result` parameter (`ConfigUnreadable`, `ConfigMalformed`, or the parsed
record).

Files: `common.dfy` (machine types, errors, codec), `tbls.dfy` (provider
handle), `keygen.dfy`, `sign.dfy`, `verify.dfy`.

The code performs none of the following checks, and neither does the model:

- `SaveKeysToYAML` does not reject a failed (nil) share. It is saved as the
  encoding of the empty byte string.
- `AggregateSignatures` checks neither that the two lists have the same
  length nor that the ids are distinct. Both go to the provider.
- Nothing checks `1 <= threshold <= n`.
- A point-to-point send whose `to` is the sender's own index is delivered to
  the sender. Only broadcasts skip the sender.

## Model

| member | source | states |
|---|---|---|
| `Common.ToUint16` | keygen/keygen.go:159 | `uint16(i)` keeps `i` when `0 <= i < 65536` and otherwise agrees with `i` modulo 65536 |
| `Tbls.Party.constructor` | keygen/keygen.go:186-192 | a new handle has `Party == uint16(id)`. It is not initialised, has received nothing, holds no share and has no threshold key yet |
| `Tbls.Party.Init` | keygen/keygen.go:150 | Init records the id list, threshold and send callback, and changes nothing else |
| `Tbls.Party.OnMsg` | keygen/keygen.go:163 | each OnMsg call appends exactly one message (payload, sender tag, broadcast flag) to the party's log |
| `Tbls.Party.KeyGen` | keygen/keygen.go:129 | KeyGen returns the provider's share or error and fixes what ThresholdPK answers afterwards |
| `Tbls.Party.ThresholdPK` | keygen/keygen.go:64 | ThresholdPK answers the key (or error) the party's key generation left |
| `Tbls.Party.SetShareData` | sign/sign.go:65 | SetShareData injects the share and changes nothing else |
| `Tbls.Party.Sign` | sign/sign.go:27 | the provider signs with the party's id, its injected share and the message |
| `Keygen.OthersAscending` | keygen/keygen.go:160-165 | a broadcast names only existing parties, in strictly ascending index order, so none twice. It reaches `n - 1` parties when the sender is among them |
| `Keygen.OthersAreNonSenders` | keygen/keygen.go:161-163 | a broadcast reaches party `i < n` if and only if `i` is not the sender |
| `Keygen.RecipientsAreReceivers` | keygen/keygen.go:158-169 | every send reaches exactly the parties `Receives` names (all others on broadcast, only `to` otherwise), in ascending order and never twice |
| `Keygen.Deliver` | keygen/keygen.go:157-170 | invoking party `id`'s callback appends one message tagged `uint16(id)`, with the payload and flag unchanged, to each receiving party's log and nothing to the others. Point-to-point needs `to < len(parties)` (the Go code panics otherwise). The call order is `Recipients` |
| `Keygen.IdListDense` | keygen/keygen.go:107-111 | for up to 65536 parties the id list is `[0, 1, ..., n-1]`, with no repeats |
| `Keygen.IdListWraps` | keygen/keygen.go:189 | beyond 65536 parties, party 65536 gets the same id as party 0 |
| `Keygen.GetIDs` | keygen/keygen.go:175-181 | getIDs returns every party's `Party` field, in party order |
| `Keygen.InitTBLSParty` | keygen/keygen.go:148-151 | party `id` is initialised with the ids of all parties, the threshold and a callback bound to `id` over the same party table |
| `Keygen.GenerateTBLSParties` | keygen/keygen.go:107-116 | returns `n` fresh, distinct parties. Party `i` has id `uint16(i)`. Every party was given the same id list `IdList(n)` and the same threshold, and a callback bound to its own index |
| `Keygen.GenerateSharesFor` | keygen/keygen.go:121-141 | the share slice has one slot per party. Slot `i` holds party `i`'s share when its KeyGen succeeds and stays nil when it fails. Each party keeps the threshold key its key generation produced |
| `Keygen.DescribedRecordDecodes` | keygen/keygen.go:69-83 | decoding a built record gives back the threshold key, and entry `i` gives party `i`'s share under `PartyID == i`. A failed share comes back as the empty byte string |
| `Keygen.Keygen.constructor` | keygen/keygen.go:27-32 | NewKeygen stores `n` and the threshold, with no parties and no shares |
| `Keygen.Keygen.GenerateParties` | keygen/keygen.go:35-37 | the Keygen's parties become a freshly generated, initialised table for its `n` and threshold |
| `Keygen.Keygen.GenerateShares` | keygen/keygen.go:40-42 | the Keygen's shares become the slots of one key-generation run over its parties |
| `Keygen.Keygen.GetPk` | keygen/keygen.go:47-54 | returns party `id`'s threshold key, or nil exactly when the provider errs |
| `Keygen.Keygen.SaveKeysToYAML` | keygen/keygen.go:57-83 | returns an error when there are no parties, or when party 0 has no threshold key. Otherwise it builds the record: the threshold, the total, the encoding of party 0's key, and entry `i = {PartyID: i, Share: encode(shares[i])}` for each party. No entry is checked |
| `Sign.LoadSignerRejects` | sign/sign.go:38-53 | a configuration that cannot be read or parsed, or that has no shares, gives no signer |
| `Sign.LoadSignerReadsFirstShareOnly` | sign/sign.go:56-63 | two records that agree on the totals and on their first entry give the same signer, whatever their other entries hold |
| `Sign.LoadSignerFields` | sign/sign.go:56-63 | given a non-empty share list, a signer exists exactly when the first share decodes. It takes `n` and the threshold from the record, and `partyId` and the decoded share from the first entry |
| `Sign.SignerFromSavedRecord` | sign/sign.go:50-63 | a signer loaded from a record that SaveKeysToYAML built is always party 0. It holds party 0's share (empty if that party's key generation failed) and the record's totals |
| `Sign.Signer.constructor` | sign/sign.go:55 | the zero-valued Signer |
| `Sign.Signer.Sign` | sign/sign.go:26-32 | returns the provider's signature share unchanged, or exactly its error. It is 64 bytes long when the provider meets the signing tests' expectation |
| `Sign.NewSigner` | sign/sign.go:37-67 | returns nil exactly when `LoadSigner` rejects. Otherwise it returns a fresh signer with those fields, whose fresh party has id `uint16(partyId)` and the decoded share injected, and has taken part in no key generation |
| `Verify.NewVerifierKeepsDecodedKey` | verify/verify.go:40-54 | a readable record whose key decodes to `pk` (canonically encoded or not) gives a verifier that stores `pk` and is initialised with `pk`. With `NewVerifierRejects`, a verifier exists exactly when the key decodes |
| `Verify.NewVerifierRecoversKey` | verify/verify.go:40-54 | corollary: a verifier loaded from a record whose key is the encoding of `pk` stores `pk` and is initialised with `pk` |
| `Verify.NewVerifierRejects` | verify/verify.go:22-45 | an unreadable or unparsable record, or an undecodable key, gives no verifier |
| `Verify.EmptyInputRejected` | verify/verify.go:86-88 | empty `sigs` or `ids` fails with an error before the provider is asked, so Verify returns false |
| `Verify.AggregationForwarded` | verify/verify.go:84-91 | non-empty input goes to the provider unchanged, with no length-equality or duplicate-id check |
| `Verify.VerifyAcceptsIff` | verify/verify.go:62-78 | Verify is true if and only if the input is non-empty and the provider both aggregates and verifies. An aggregation error or a verification failure gives false |
| `Verify.VerifyAsTested` | verify/verify_test.go:42-96 | with a provider that behaves as the tests assert (n = 4, t = 3), Verify accepts the full set and every tested three-party set. It rejects every tested pair and `{0, 0, 1}` |

## Left out

- The provider's cryptography (DKG rounds, signing, aggregation, pairing checks). It is a parameter: a `DkgOutcome` per party and the functions of a `Crypto` value. It is constrained in three places. Two come from the tests: `SharesAre64Bytes` (sign/sign_test.go:71-82) and `ProviderAsTested` (verify/verify_test.go:42-96). The third is the fresh-handle assumption of `Tbls.Party.constructor` below: `ThresholdPK` answers an error until key generation has run. `ProviderAsTested` lists exactly the subsets the tests try. The untested pairs `{1,2}` and `{1,3}` are not constrained.
- Messages the provider sends during `KeyGen`. They are internal to the provider. `Keygen.Deliver` models what one invocation of a callback does.
- Agreement on the threshold key across parties is the provider's property. It is not modelled. `SaveKeysToYAML` reads party 0's key only.
- The goroutine per party and the `sync.WaitGroup` in generateShares. The model runs the parties one after another. Each slot is still written only by its own party.
- File reading and writing, the timestamped file name, `yaml.Marshal`/`yaml.Unmarshal` and their errors, the zap logger and all printing. `SaveKeysToYAML` returns the record that would be marshalled. `NewSigner` and `NewVerifier` take the outcome of reading and parsing as a `Result`.
- Base64 itself. It is an abstract codec with the round-trip property.
- YAML key names. Records are modelled field by field. The packages disagree at the key level. The sign package's `mapstructure` tags are ignored by yaml.v3, which then expects the lower-cased field names `totalparties`, `threshold`, `thresholdpk`, `shares`, `partyid` and `share`. A file written by keygen (`total_parties`, `threshold_public_key`, `party_id`) therefore reaches the sign package with `TotalParties = 0`, `ThresholdPK = ""` and `PartyID = 0` in every entry; only `Threshold` and each `Share` carry over. The verify package tags `Sig` as `threshold`, so a signature is read from a `threshold` key. `Sign.SignerFromSavedRecord` states the round trip for the fields as keygen wrote them, not for what yaml.v3 reads back.
- `Tbls.Party` has no logger field. The logger set in keygen/keygen.go:188 is not modelled.
- Keygen.Keygen.GenerateParties: requires `0 <= n`; with a negative `n` the `make` at keygen/keygen.go:108 panics, and the model does not represent the panic.
- Keygen.Keygen.GetPk: requires `0 <= id < len(parties)`; otherwise the index at keygen/keygen.go:48 panics, which the model does not represent.
- Keygen.Keygen.SaveKeysToYAML: requires `len(shares) >= len(parties)` once party 0 has a threshold key; otherwise `k.shares[i]` at keygen/keygen.go:81 panics, which the model does not represent.
- Sign.Signer.Sign: requires the signer to hold a party; a zero-valued Signer panics on the nil party at sign/sign.go:27, which the model does not represent.
- Tbls.Party.constructor: assumes that a fresh handle's `ThresholdPK` answers an error until key generation has run. The provider does not promise this. If it answered a key instead, `SaveKeysToYAML` called after `GenerateParties` but before `GenerateShares` would reach `k.shares[i]` on an empty slice and panic, and the model would not show that panic.
- Verify.VerifyAcceptsIff: covers only calls in which the provider returns. The provider can panic instead: verify/verify_test.go:67-68 records that `Verify` with ids `{0, 0, 0}` panics, and verify/verify.go:62-91 has no `recover` and no duplicate-id guard. In the model `c.aggregate` and `c.verify` are total functions, so every call yields a boolean and the panic is not represented.
