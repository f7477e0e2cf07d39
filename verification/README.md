# STRK20 privacy-pool client: a verified model

This project models the part of the wallet that keeps a user's private balance in the STRK20 privacy pool:
reading channels and notes from the pool's storage (*discover*), turning an intent into an ordered batch of
client actions (*plan*), flattening the batch into three nested length-prefixed felt layers (*encode*), and
what the pool does with it (*execute*). The central result is that a plan made from what discovery returned
runs on the pool without reverting, and that a second discovery then returns exactly the state the planner
predicted (`Rediscovery.SecondDiscovery`). Five smaller state machines of the wallet are modelled beside it: the approval bridge, the session
with its registry and vault, the prover's job store, the passphrase backoff, and the Sierra class normaliser.

## How it is set up

* **Pool.** The pool contract is not part of the repository, so `Pool` is an abstract state machine over
  client actions. It keeps the plaintext behind every slot; its views return the ciphertexts the contract
  stores. Its rules are what the client's code and comments say: the views `discovery.rs` reads, the action
  meanings and phases of `actions.rs`, the index and balance rules at the head of `planner.rs`, the revert on
  a slot that is already taken, one subchannel per channel and token. A zero stored salt reverts, and so does
  opening a channel with an ephemeral key that is no curve scalar. Of the draws in `SetViewingKey` and `Withdraw`
  nothing is asked: what the contract does with them is not in the repository. `Wf` says that lists have no gaps
  and agree with their markers. `History` adds what only other clients send: creating open notes (the pool's
  variant 4) and invoking contracts (variants 8 and 9), of which the model takes that they can fill open notes and
  touch nothing else the client reads. `Wf` is proved of every history of all of these, in any order. Some
  predicates are sealed, see `Sealing`.
* **Hashes and curve.** `Env` holds the tagged Poseidon hash, the public-key map and ECDH as functions.
  Assumed, in `Sound`: ECDH agrees both ways, valid scalars have non-zero public keys, and the channel keys
  between the finitely many accounts taking part do not collide. (A hash into a bounded field cannot be
  injective on all inputs, so freedom from collisions is only ever assumed of the inputs in play.)
  Also assumed, as `OwnKey`: the viewing key at hand is the one the account registered, if it has registered.
  Planning and discovery rest on it; every batch of the account's own keeps it (`Rediscovery.ExecKeepsOwnKey`).
  `Reads` says that a reader answers like the contract does at the hashed addresses. That is not assumed:
  `RawReader.DiscoveryReadsRawStorage` derives it, for the raw store any history leaves at hashed addresses, from
  the hash not colliding on the slots in use, and `Example` gives a setting with two accounts where it does not.
* **Ranges.** `SafeSums`: no running per-token sum leaves the i128 range before an amount that is refused
  anyway. `Bounded`, `ListsHaveRoom`: fewer than 2^32 entries in every list that is numbered with a u32. The
  spending loop needs no range assumption: its sums are shown to stay i128.
* **Randomness** is an input: the draws a source makes before it first fails. The planner does not look at
  its felt draws, so a plan runs *exactly when* its draws are good (`GoodDraws`): that is the precise condition
  in `Batch.PlanRuns`. It asks something of three draws: the ephemeral key of each channel opened, and the salts of
  channels and subchannels. `FirstBatch.ScalarPlansRun` says it is met by any source of valid scalars. Note salts are
  checked by the planner and always good.
* **Form.** What the source does with loops and mutable state is a method or a class (`Discovery`,
  `NoteDiscovery`, `StateDiscovery`, `PlanMethods`, `Prepare`, `Actions`, `Invocation`, `Approval`, `Session`,
  `Jobs`, `Backoff`), proved against a specification function about which the properties are then proved. A
  loop nest of the source is one method per loop.

Reading order of the main results: `History.EveryHistoryIsWf`, `RawReader.DiscoveryReadsRawStorage`,
`NoteFacts.NotesMember`, `Covering.SpendingIsMinimal`, `Success.PlanSucceedsExactly`, `Emitted.PlanConserves`,
`Draws.DrawsInOrder`, `Batch.PlanRuns`, `Rediscovery.SecondDiscovery`, `Outcome.NotesAfterPlan`, `Outcome.BalancesAfterPlan`,
`Others.PlanSurvivesOthers`, `FirstBatch.FirstDepositArrives`, `Prepare.PreparedRuns`, `Moving.PreparedOverPools`,
`Moving.MovingExactly`, `Verdict.PreparedExactly`, `Invocation.InvocationInjective`, `Guarding.AppGuessesAreSlow`,
`ClassInput.ReadExactly`.

Three places where the code is not what one might expect, all kept as they are:

* `available` counts open notes although they are never spent, so shortfall and available need not add up to the
  deficit: `Success.ShortfallPlusAvailable` says exactly when they do, `Success.OpenNotesInflateAvailable` is an
  input where they do not.
* The head of `planner.rs` (lines 4-5) offers registration "in any combination within one batch" with transfers,
  but discovery reads no channel of an account that has not registered. So a batch that registers its user is
  planned exactly when, besides the other conditions, every transfer goes to the user itself:
  `Registration.RegisteringReachesOnlySelf`, and `Registration.BobIsRefused` at an input. The wallet's own handlers
  never form such a batch: the only intent that registers (`crates/wallet-rpc/src/strk20/mod.rs:605`) has no
  transfers, and `intent_of` never sets `register`.
* The guard before planning compares the notes too, and its message speaks of a recent transaction *from this account*
  (`crates/wallet-rpc/src/strk20/mod.rs:369-374`). When only others act, it fires exactly when they changed the notes
  the account holds of the tokens that leave (`Moving.MovingExactly`). So a payment received in such a token stops a
  plan that would still have run: `Payment.PaymentStopsAPlan`.

## Model

| member | source | states |
|---|---|---|
| Discovery.DiscoverChannel | crates/strk20/src/discovery.rs:171-212 | returns exactly the channel the pool holds from the user to the recipient (marker, every subchannel with its index and next free note slot), or the refusal of an unregistered recipient |
| Discovery.ScanSubchannels | crates/strk20/src/discovery.rs:181-204 | the scan stops at the first empty subchannel slot having collected every subchannel of the key |
| Discovery.CountNotes | crates/strk20/src/discovery.rs:192-195 | returns the first note slot that reads zero: the index the next note takes |
| Discovery.OutgoingChannelCount | crates/strk20/src/discovery.rs:215-238 | returns the number of outgoing channels the pool lists for the user |
| Discovery.SubchannelRead | crates/strk20/src/crypto.rs:65-71 | a subchannel slot reads salt zero exactly when it is empty, and decrypts to its token otherwise |
| Discovery.NoteRead | crates/strk20/src/crypto.rs:113-140 | a note slot decrypts to nothing exactly when it is empty, and to its amount and openness otherwise |
| NoteDiscovery.DiscoverNotes | crates/strk20/src/discovery.rs:91-146 | the triple scan returns exactly the notes the pool holds unspent for the user, in channel, subchannel and note order, filtered by token |
| NoteDiscovery.ScanChannels | crates/strk20/src/discovery.rs:97-107 | the outer loop appends each incoming channel's notes in order |
| NoteDiscovery.ScanSubchannelNotes | crates/strk20/src/discovery.rs:107-116 | the middle loop skips unwanted tokens and ends at the first empty subchannel |
| NoteDiscovery.ScanNotes | crates/strk20/src/discovery.rs:117-142 | the inner loop skips spent notes and ends at the first empty note slot |
| NoteDiscovery.OwnerDecrypts | crates/strk20/src/crypto.rs:45-54 | the recipient decrypts each of its incoming channels to the key and sender the pool recorded |
| NoteFacts.NotesMember | crates/strk20/src/discovery.rs:89-96 | discovery returns a note if and only if it is an unspent note of a wanted token on a channel to the user |
| NoteFacts.NotesOnce | crates/strk20/src/discovery.rs:91-146 | no note is returned twice |
| NoteFacts.FilterWhileScanning | crates/strk20/src/discovery.rs:113-116 | filtering while scanning equals scanning everything and filtering afterwards, order included |
| NoteOrder.NotesExactly | crates/strk20/src/discovery.rs:91-146 | every field of a returned note in terms of the pool: its place's hash, token, amount, channel, index, sender and openness; and a note is returned if and only if it is so, not nullified and wanted |
| NoteOrder.NotesInScanOrder | crates/strk20/src/discovery.rs:97-142 | the notes come by channel, within a channel by subchannel, and by index |
| Mirror.ChannelExactly | crates/strk20/src/discovery.rs:171-212 | every field of a discovered channel in terms of the pool: key, openness, which tokens have subchannels, their indices and next note slots |
| StateDiscovery.DiscoverState | crates/wallet-rpc/src/strk20/mod.rs:319-339 | the discovered state is the specified one: registration, channels to every recipient and the user, filtered notes, outgoing count, or the first refusal |
| StateDiscovery.ChannelsToAre | crates/wallet-rpc/src/strk20/mod.rs:321-330 | the channels are found exactly when every recipient has registered, each is the pool's own, and otherwise the first unregistered recipient is named |
| StateDiscovery.ChannelsToSkips | crates/wallet-rpc/src/strk20/mod.rs:325-327 | not reading a repeated recipient again loses nothing |
| StateDiscovery.StateIs | crates/wallet-rpc/src/strk20/mod.rs:319-339 | the discovered state mirrors the pool's channels and outgoing count, and its notes are the unspent ones of the tokens that leave, each once |
| Narrow.NarrowIsEnough | crates/wallet-rpc/src/strk20/mod.rs:331-336 | reading only the notes of transferred and withdrawn tokens gives the same plan, or the same refusal, as knowing every note |
| Pool.StepKeepsWf | crates/strk20/src/actions.rs:16-62 | every action of this client by every account keeps the pool's lists free of gaps and in agreement with their markers |
| History.PerformKeepsWf | crates/strk20/src/actions.rs:78-90 | so does every action of any client, the pool's open-note and invoke variants included |
| History.EveryHistoryIsWf | crates/strk20/src/planner.rs:5-14 | whatever actions anybody gets accepted in whatever order, the pool stays well formed |
| History.BatchIsHistory | crates/strk20/src/actions.rs:64-74 | running a batch is performing its actions one after another |
| Pool.AbsentKey | crates/strk20/src/hashes.rs:89-104 | nobody else's channel can be at the key of a channel that does not exist yet |
| Hashes.SlotInputInjective | crates/strk20/src/hashes.rs:106-168 | slots of different kinds or with different arguments hash different inputs |
| Hashes.KeyInjective | crates/strk20/src/hashes.rs:89-104 | a channel key determines its sender, viewing key included, and its recipient |
| HashUses.UseInputInjective | crates/strk20/src/hashes.rs:40-168 | no two of the hash's uses (channel keys, the pad of each encrypted field, slot addresses) have the same input |
| HashUses.HashesAreUses | crates/strk20/src/hashes.rs:51-104 | the hashes the client computes are these uses |
| HashUses.AddressesAre | crates/strk20/src/hashes.rs:106-168 | each slot's address is the hash of its own tag and arguments, in this order |
| HashUses.UsesApart | crates/strk20/src/hashes.rs:40-168 | where the hash does not collide on the uses in play, no pad is another field's, another place's, or an address |
| Storage.AddressesApart | crates/strk20/src/hashes.rs:106-168 | addresses of note, subchannel, outgoing, marker and nullifier slots meet only if the slots are the same |
| RawStorage.WritesKeepHolding | crates/strk20/src/hashes.rs:106-168 | any run of writes at hashed addresses keeps the raw store in agreement with the store of named slots |
| RawStorage.SentCell | crates/strk20/src/actions.rs:16-62 | each accepted action changes exactly the slots it writes, to exactly these cells |
| RawStorage.RawStoreFollows | crates/strk20/src/hashes.rs:106-168 | after any history the raw store, written at hashed addresses, holds in every slot in use exactly what the pool holds there |
| RawReader.UsersAreRead | crates/strk20/src/discovery.rs:44-48 | registered keys and incoming channels are read as the pool has them |
| RawReader.SlotsAreRead | crates/strk20/src/discovery.rs:50-68 | so are subchannels, notes, nullifiers, channel markers and outgoing channels, through their hashed addresses |
| RawReader.DiscoveryReadsRawStorage | crates/strk20/src/discovery.rs:22-68 | after any history a reader over the raw store answers all of discovery's calls from the pool's state, if the hash does not collide on the slots in use |
| Example.SlotsDoNotCollide | crates/strk20/src/hashes.rs:106-168 | a concrete hash and two accounts for which no two of all the slots they can ever use collide |
| Example.AReadableSetting | crates/strk20/src/discovery.rs:22-68 | the assumptions about the setting and the reader can be met together |
| ShortStrings.ShortStringFits | crates/strk20/src/hashes.rs:27-31 | a string of at most 31 ASCII characters stays below the prime |
| ShortStrings.ShortStringClash | crates/strk20/src/hashes.rs:27-31 | two short strings are the same felt exactly when they differ only in leading NULs |
| ShortStrings.TagNamesDistinct | crates/strk20/src/hashes.rs:11-25 | different tags have different texts |
| ShortStrings.HashInputInjective | crates/strk20/src/hashes.rs:33-38 | tag and arguments can be read back from the list that is hashed |
| ShortStrings.TaggedUncollided | crates/strk20/src/hashes.rs:33-38 | if Poseidon does not collide on the inputs in use, neither does the tagged hash |
| Crypto.ChannelInfoRoundTrip | crates/strk20/src/crypto.rs:45-54 | the recipient recovers channel key and sender from what the sender's ephemeral key encrypted |
| Crypto.SubchannelTokenRoundTrip | crates/strk20/src/crypto.rs:65-71 | field subtraction recovers the token whatever wrap-around addition made |
| Crypto.OutgoingRecipientRoundTrip | crates/strk20/src/crypto.rs:80-88 | the sender recovers the recipient of its own outgoing channel |
| Crypto.DecryptedChannelInfo | crates/strk20/src/crypto.rs:45-54 | adding each pad back gives the stored felt; refused exactly when the ephemeral point is not on the curve |
| Crypto.DecryptedToken | crates/strk20/src/crypto.rs:65-71 | the token plus its pad is the stored felt |
| Crypto.DecryptedRecipient | crates/strk20/src/crypto.rs:80-88 | the recipient plus its pad is the stored felt |
| Crypto.DecryptedNote | crates/strk20/src/crypto.rs:113-140 | for every stored felt: 0 is empty; otherwise the salt is the quotient by 2^128, salt 1 is an open note in the clear, and else amount plus amount hash is the low half modulo 2^128 |
| Crypto.PackSplits | crates/strk20/src/crypto.rs:101-110 | for salts below 2^120 the packed value never reaches the prime and splits back into salt and low half |
| Crypto.NoteValueRoundTrip | crates/strk20/src/crypto.rs:113-161 | every amount below 2^128 under every salt from 2 to 2^120 - 1 and every pad decrypts to itself, not open |
| Crypto.OpenNoteIsPlain | crates/strk20/src/crypto.rs:113-140 | a slot with salt 1 reads as an open note with its amount in the clear |
| Planner.TakeSalt | crates/strk20/src/planner.rs:308-315 | an accepted salt is 120 bits and neither 0 nor the open-note mark; the felt draws are untouched |
| Planner.BalancesInRange | crates/strk20/src/planner.rs:119-127 | the balance loop ends with each token's deposits less outflows, inside i128 |
| PlanMethods.CheckAmounts | crates/strk20/src/planner.rs:112-117 | accepts exactly the intents whose amounts are all positive |
| PlanMethods.SumBalances | crates/strk20/src/planner.rs:119-127 | the two balance loops compute the specified balances without leaving i128, and refuse an amount of 2^127 or more |
| PlanMethods.SpendLoop | crates/strk20/src/planner.rs:140-146 | the spending loop, with its running i128 balance, stops where the specification says |
| PlanMethods.CoverDeficits | crates/strk20/src/planner.rs:129-164 | the loop over tokens in ascending order computes the specified cover or the first refusal |
| PlanMethods.DrawSalt | crates/strk20/src/planner.rs:308-315 | the rejection loop returns the first acceptable salt |
| Placing.EnsureChannelShape | crates/strk20/src/planner.rs:196-214 | ensuring a channel changes nothing when the entry is open; otherwise it appends one opening at the running index, marks that entry open, and leaves every other entry alone |
| PlanMethods.Place | crates/strk20/src/planner.rs:219-255 | one round of the placing loop, mutating the channel map as it goes, does what the specification of one note says |
| PlanMethods.PlaceNotes | crates/strk20/src/planner.rs:219-255 | the placing loop does what placing the notes one by one does |
| PlanMethods.NotesToPlace | crates/strk20/src/planner.rs:166-168 | transfers first, then one change note per token in token order |
| PlanMethods.Withdrawals | crates/strk20/src/planner.rs:272-279 | the withdrawal loop emits one action per withdrawal with one draw each |
| PlanMethods.PlanBatch | crates/strk20/src/planner.rs:107-297 | the planner as it runs returns exactly the specified plan or refusal |
| Covering.SortSorted | crates/strk20/src/planner.rs:139 | the sort is a permutation in descending order |
| Covering.SortStable | crates/strk20/src/planner.rs:139 | notes of the same amount keep their order |
| Covering.SpentAreLargest | crates/strk20/src/planner.rs:129-147 | the notes spent for a token are the largest of its spendable ones |
| Covering.SpendingIsMinimal | crates/strk20/src/planner.rs:129-164 | no choice of fewer spendable notes covers the deficit, and the change is smaller than every note spent |
| Covering.RefusedExactlyWhenShort | crates/strk20/src/planner.rs:132-160 | a deficit is refused exactly when all spendable notes fall short or one is too large for i128, and the shortfall is exactly the gap |
| CoverAllTokens.CoverIsBalanced | crates/strk20/src/planner.rs:129-164 | over all tokens: no note spent twice, every spent note spendable, balance plus spent equals change |
| CoverAllTokens.CoversEach | crates/strk20/src/planner.rs:129-164 | each token spends what covering it alone would; tokens not in deficit spend nothing |
| CoverAllTokens.CoverAllExactly | crates/strk20/src/planner.rs:129-164 | all tokens are covered if and only if each one can be; otherwise the first that cannot is reported |
| CoverAllTokens.AscendingIs | crates/strk20/src/planner.rs:131 | the token order visits every token exactly once |
| Success.PlanSucceedsExactly | crates/strk20/src/planner.rs:107-297 | given randomness and sums in range, a plan is made if and only if the user is registered or registering, amounts are positive and fit, every token can be covered, and everybody sent a note has a channel entry |
| Refusals.RefusedBecause | crates/strk20/src/planner.rs:107-202 | which refusal comes: an unregistered user, an amount of 0, an amount of 2^127 or more, and after covering the first recipient without a channel entry, transfers before change |
| Refusals.CoverableExactly | crates/strk20/src/planner.rs:132-147 | a token can be covered exactly when its notes that are not open are worth enough and each fits an i128 |
| Registration.RegisteringReachesOnlySelf | crates/strk20/src/planner.rs:175-220 | a batch that registers its user is planned if and only if amounts are positive and fit, no token has a deficit, and every transfer goes to the user itself |
| Registration.BobIsRefused | crates/strk20/src/planner.rs:200-202 | registering, depositing and sending on to somebody else is refused for want of that channel, from every pool |
| Success.ShortfallIsTheGap | crates/strk20/src/planner.rs:147-160 | on a balance failure the refusal names the smallest uncovered token and exactly its gap |
| Success.ShortfallPlusAvailable | crates/strk20/src/planner.rs:148-158 | shortfall and available add up to the deficit if and only if no open note of the token is worth anything |
| Success.OpenNotesInflateAvailable | crates/strk20/src/planner.rs:148-158 | a concrete state in which they do not |
| Success.TakeSaltSucceeds | crates/strk20/src/planner.rs:308-315 | drawing a salt succeeds exactly when an acceptable one is still to come |
| Success.PlaceAllSucceeds | crates/strk20/src/planner.rs:196-255 | given randomness, placing succeeds exactly when every recipient has a channel entry |
| Indices.NoteIndices | crates/strk20/src/planner.rs:219-255 | each note's index is its subchannel's next index plus the number of earlier notes of the batch on the same subchannel |
| Indices.NotesApart | crates/strk20/src/planner.rs:219-255 | no two new notes share recipient, token and index, even with repeated recipients or transfers to oneself |
| Indices.NextNotes | crates/strk20/src/planner.rs:250-254 | the working copy's next index has moved by the number of notes placed there |
| Indices.SubIndices | crates/strk20/src/planner.rs:221-241 | each new subchannel takes the index after all its channel has, earlier ones of the batch included |
| Indices.SubsApart | crates/strk20/src/planner.rs:221-241 | no subchannel is opened twice |
| Indices.SubchannelsOpened | crates/strk20/src/planner.rs:221-241 | a subchannel is opened for exactly the recipient and token pairs sent to that have none |
| Indices.ChannelsOpened | crates/strk20/src/planner.rs:196-214 | a channel is opened for exactly the recipients sent to that have none, once each, at consecutive indices |
| Indices.PlanOpens | crates/strk20/src/planner.rs:175-217 | over the whole plan: exactly the recipients that need a channel get one, numbered on from the user's outgoing count, a registering user's own included |
| Indices.LinkageWarned | crates/strk20/src/planner.rs:282-290 | the linkage warning is given if and only if two different recipients need a channel |
| Emitted.PlanInPhaseOrder | crates/strk20/src/planner.rs:257-280 | for every intent and state the batch is sorted by phase |
| Emitted.PlanConserves | crates/strk20/src/planner.rs:119-168 | for every token, deposits plus the notes named by use actions equal new notes plus withdrawals |
| Emitted.DraftEmits | crates/strk20/src/planner.rs:243-278 | one create action per transfer and change note with its recipient, token and amount, one withdraw action per withdrawal |
| Emitted.DraftCovers | crates/strk20/src/planner.rs:129-164 | no note is spent twice, spent notes are known ones, and flows plus spent equal change |
| Itemised.PlanIsItemised | crates/strk20/src/planner.rs:129-297 | item by item: each deposit, transfer and withdrawal has its action in order with its own fields; change notes follow by ascending token with exactly the plan's change; the notes used are known, by ascending token and largest first, and the plan lists their ids |
| Draws.DrawsInOrder | crates/strk20/src/planner.rs:175-279 | the felts of the actions, in drawing order (viewing key, own channel, note by note its channel and subchannel, withdrawals), are exactly the first felts of the source, one for each field; the note salts are its first usable salts in order |
| Mirror.OpenMirrors | crates/strk20/src/planner.rs:196-214 | if the working copy is the pool's, opening a channel is accepted and marking it open keeps the copy exact |
| Mirror.SubMirrors | crates/strk20/src/planner.rs:221-241 | the same for opening a subchannel at the number of subchannels |
| Mirror.NoteMirrors | crates/strk20/src/planner.rs:243-254 | the same for creating a note and bumping the next index |
| Reorder.OvertakesAll | crates/strk20/src/planner.rs:257-259 | moving a channel or subchannel opening ahead of later phases changes neither acceptance nor outcome |
| Placing.PlaceNoteSim | crates/strk20/src/planner.rs:219-255 | after each note placed, the batch so far, in phase order, runs on the pool and leaves it as the working copy says |
| Placing.PlaceAllSim | crates/strk20/src/planner.rs:219-255 | the same after all of them |
| Accounting.ExecNet | crates/strk20/src/planner.rs:8-10 | a run moves each token's batch balance by exactly what its actions say |
| Accounting.UsesRun | crates/strk20/src/planner.rs:266-270 | distinct unspent notes can all be used; only their nullifiers are new |
| Batch.PlanRuns | crates/strk20/src/planner.rs:107-297 | a plan made from what discovery returned is accepted if and only if its draws are good, and then rediscovery of every channel it touched returns exactly the planner's final working copy |
| Batch.InformedPlanRuns | crates/strk20/src/planner.rs:107-297 | the same from any state that still describes the pool, not only a fresh discovery |
| FirstBatch.ScalarPlansRun | crates/strk20/src/planner.rs:30-53 | with a source that only draws valid scalars, every plan made from what discovery returned is accepted |
| FirstBatch.FirstDepositArrives | crates/strk20/src/planner.rs:175-218 | from the empty pool, registering and depositing in one batch is planned, accepted and rediscovered as exactly the deposit |
| FirstBatch.TheSettingExists | crates/strk20/src/planner.rs:28-53 | a setting with two accounts, a reader of its pool, and a source that meet all these assumptions |
| Balance.ExecUnspent | crates/strk20/src/actions.rs:16-62 | after any batch a user's notes are those it had, less those the batch spent, plus those created for it |
| Balance.BalanceMoves | crates/strk20/src/planner.rs:8-10 | any accepted batch moves every user's private balance by exactly the deposits, withdrawals and notes that concern it |
| Outcome.NotesAfterPlan | crates/strk20/src/planner.rs:166-255 | rediscovery after a plan returns the old notes less the spent list plus change and transfers to oneself |
| Outcome.BalancesAfterPlan | crates/strk20/src/planner.rs:119-168 | the user's balance moves by deposits less withdrawals less transfers to others, and each recipient's by what it was sent |
| Rediscovery.LaterGrows | crates/strk20/src/planner.rs:5-14 | no accepted action, by whomever, lengthens a numbered list by more than one entry |
| Rediscovery.WorkCovers | crates/strk20/src/planner.rs:170-214 | the planner's final working copy holds a channel for exactly the recipients of the transfers and the user |
| Rediscovery.Rediscovered | crates/wallet-rpc/src/strk20/mod.rs:319-339 | after an accepted plan, discovering for the same intent returns the planner's working copy and outgoing count, and as notes the old ones less those spent plus those created for the user |
| Rediscovery.SecondDiscovery | crates/wallet-rpc/src/strk20/mod.rs:319-339 | from any history: the plan is accepted if and only if its draws are good, the raw storage it leaves again gives a reader all that discovery needs, and what that second discovery returns is what the planner predicted |
| Others.StepKeepsDescribed | crates/wallet-rpc/src/strk20/mod.rs:363-366 | another user's action of this client leaves a discovered state describing the pool |
| Others.PerformKeepsDescribed | crates/wallet-rpc/src/strk20/mod.rs:363-366 | so does any other client's action, open notes and invokes included |
| Others.PlanSurvivesOthers | crates/wallet-rpc/src/strk20/mod.rs:363-374 | after anything other users do in between, the plan is still accepted exactly when its draws are good |
| Prepare.IntentOf | crates/wallet-rpc/src/strk20/mod.rs:276-286 | the k-th entry of each list has exactly the token, amount and recipient of the k-th request of its kind, and there is no other |
| Prepare.IntentMovesWhatWasAsked | crates/wallet-rpc/src/strk20/mod.rs:276-286 | the three lists together move, in every token, exactly what the requests ask, and none is lost |
| Prepare.PlanRunsOnBoth | crates/wallet-rpc/src/strk20/mod.rs:341-374 | if discovery at the proving block and at the latest block agree, the plan from the older runs on both pools |
| Prepare.PrepareBatch | crates/wallet-rpc/src/strk20/mod.rs:357-381 | discovers at both blocks, compares, plans, and refuses plans with the linkage warning, in this order |
| Prepare.PreparedRuns | crates/wallet-rpc/src/strk20/mod.rs:357-381 | a prepared plan opens at most one channel and runs on both pools exactly when its draws are good |
| Verdict.PreparedIs | crates/wallet-rpc/src/strk20/mod.rs:357-381 | case by case: the first read's refusal, the second's, moving exactly when the account differs in registration, outgoing count, channels or wanted notes, the planner's refusal, a privacy refusal exactly when two recipients need a channel, and otherwise the plan made from the older read |
| Verdict.PreparedExactly | crates/wallet-rpc/src/strk20/mod.rs:357-381 | given randomness, a batch is prepared if and only if both reads succeed, the account is unchanged, the intent can be planned and no two recipients need a channel; refused for privacy if and only if all that but two do |
| Verdict.WarnedExactly | crates/strk20/src/planner.rs:282-290 | the warning is given exactly when two different recipients (transfers, own change, own registration) have no open channel |
| Verdict.OpenExactly | crates/wallet-rpc/src/strk20/mod.rs:321-330 | a channel that was read is open exactly when the pool holds its marker |
| Moving.PreparedSurvivesOthers | crates/wallet-rpc/src/strk20/mod.rs:363-381 | the second read only decides whether there is a plan: whatever it returned, if only others act from the proving block on, the plan is accepted exactly when its draws are good |
| Moving.SpreadReadDescribes | crates/wallet-rpc/src/strk20/mod.rs:367 | a read whose pieces (registration, each channel, the notes, the outgoing count) come from different pools, between which only others act, describes the last pool |
| Moving.PreparedOverPools | crates/wallet-rpc/src/strk20/mod.rs:363-381 | so a prepared plan runs on the last pool of such a second read, whatever anybody did between the two reads |
| Moving.MovingExactly | crates/wallet-rpc/src/strk20/mod.rs:341-374 | when only others act between the reads, the wallet calls the state moving if and only if the notes it holds of the tokens that leave changed |
| Moving.PaymentMoves | crates/wallet-rpc/src/strk20/mod.rs:341-374 | any accepted payment to the user in a token that leaves makes it do so |
| Payment.PaymentStopsAPlan | crates/wallet-rpc/src/strk20/mod.rs:363-374 | from a pool that is reached, a payment of 3 makes the wallet give up a plan that the pool would still accept |
| Prepare.ReportedIsHeld | crates/wallet-rpc/src/strk20/mod.rs:585-592 | the balance reported for a requested token is the account's whole private balance in it |
| Prepare.Approvals | crates/wallet-rpc/src/strk20/mod.rs:513-521 | the approvals cover exactly the deposits token by token plus the pool's fee, and no other token |
| Actions.Serialize | crates/strk20/src/actions.rs:105-158 | appends the variant number and the fields of one action |
| Actions.SerializeActions | crates/strk20/src/actions.rs:162-168 | the length, then the actions' encodings one after another |
| Actions.WireLayout | crates/strk20/src/actions.rs:105-158 | each variant's number and the order of its fields on the wire |
| Actions.TwoActions | crates/strk20/src/actions.rs:174-198 | a list of two actions, felt by felt |
| Actions.ListRoundTrip | crates/strk20/src/actions.rs:105-168 | a list decodes to the actions if and only if it is their encoding |
| Invocation.EncodeCalls | crates/wallet-core/src/tx.rs:93-103 | the call count, then each call's target, selector, length and calldata |
| Invocation.MultiCallRoundTrip | crates/wallet-core/src/tx.rs:93-103 | calldata decodes to the calls if and only if it is their encoding |
| Invocation.NewInvocation | crates/strk20/src/invocation.rs:35-91 | the calldata decodes through all three layers to pool, selector, user, viewing key and actions, and encoding its inner call gives the calldata that is sent |
| Invocation.InvocationInjective | crates/strk20/src/invocation.rs:78-91 | calldata that decodes to the same batch is the same calldata, so what is signed covers all of it |
| Approval.Bridge.Receive | desktop/src-tauri/src/lib.rs:882-890 | a prompt is inserted under the next id; a channel it replaces is dropped |
| Approval.Bridge.Respond | desktop/src-tauri/src/lib.rs:766-788 | the user's answer resolves the prompt still pending under the id, or nothing |
| Approval.Bridge.Expire | desktop/src-tauri/src/lib.rs:920-934 | the timer rejects the prompt if it is still pending, and does nothing otherwise |
| Approval.DecidedOnce | desktop/src-tauri/src/lib.rs:766-942 | in every interleaving a decision, once made, never changes |
| Approval.ApprovalIsTheUsers | desktop/src-tauri/src/lib.rs:766-788 | an approval always comes from the user's positive answer to that prompt while it was pending |
| Approval.AnswerDecides | desktop/src-tauri/src/lib.rs:766-788 | an answer to a pending prompt decides its request as answered, for good; an answer to any other id changes nothing |
| Approval.DecisionHasCause | desktop/src-tauri/src/lib.rs:766-942 | nothing is decided but by an answer, a timer or a prompt taking over the id, while still pending |
| Approval.TimerDecides | desktop/src-tauri/src/lib.rs:918-934 | once a prompt's timer has run its request is decided: rejected, unless it was decided before |
| Approval.IdsAreDistinct | desktop/src-tauri/src/lib.rs:880-885 | until 2^64 prompts have come no id is used twice |
| Session.PathsApart | crates/wallet-core/src/domain.rs:90-110 | within the branch limits different accounts have different effective derivation paths, hardened bit included |
| Session.BranchesMeetAt | crates/wallet-core/src/domain.rs:40-44 | exactly where the branches would meet without the limits |
| Session.NextIndexIsFresh | crates/wallet-core/src/accounts.rs:38-45 | the next index is above every index of its branch, and at most one past the largest |
| Session.RollbackRestores | crates/wallet-core/src/accounts.rs:54-58 | removing the account just added by address restores the registry if and only if no other account has that address |
| Session.AccountsApart | crates/wallet-core/src/accounts.rs:27-50 | registered accounts differ pairwise in address and derived key |
| Session.AgentAccountsArePrivate | crates/wallet-core/src/accounts.rs:68-80 | no agent account is visible to two different callers |
| Accounts.VisibleExactly | crates/wallet-core/src/accounts.rs:65-80 | each account is visible to exactly one caller: its owner, or anybody who is no agent |
| Session.WalletSession.UnlockWith | crates/wallet-rpc/src/session.rs:130-140 | replaces the contents in memory exactly when the vault opens; an unsupported version, a wrong passphrase and undecodable contents are told apart and change nothing |
| Session.WalletSession.Reseal | crates/wallet-rpc/src/session.rs:173-183 | the sealed vault opens under the stored passphrase to the same contents and under no other; refused while locked |
| Session.WalletSession.Create | crates/wallet-rpc/src/session.rs:333-407 | registers the next account of the branch, or refuses and changes nothing |
| Session.WalletSession.Rollback | crates/wallet-rpc/src/session.rs:187-191 | takes back the accounts with the address |
| Session.App.FinalizeSetup | desktop/src-tauri/src/lib.rs:212-224 | a fresh registry in memory, on the app's own chain, and on disk, or neither when saving fails; the staged mnemonic is used up either way |
| Session.App.UnlockVault | desktop/src-tauri/src/lib.rs:228-251 | refused while the guard's delay runs; otherwise opens the vault and clears the guard, or counts the miss, except for a vault this build refuses |
| Session.App.AddAccount | crates/wallet-rpc/src/dispatch.rs:2060-2079 | a new account in memory and on disk, or an error and exactly the state from before; without a vault store, in memory only |
| Accounts.SetupIsWhatWasStaged | desktop/src-tauri/src/lib.rs:192-224 | after staging a mnemonic, setup, locking and unlocking, the session holds exactly that mnemonic and no account, under the setup's passphrase only |
| Accounts.MnemonicsAreKnown | desktop/src-tauri/src/lib.rs:192-251 | over every run, the mnemonic in memory and on disk was staged or was there at the start |
| Accounts.CreationsAre | crates/wallet-rpc/src/session.rs:333-407 | creating adds the account asked for: name, owner, next index of its branch, the address of its key path, in memory and in the vault; nothing changes when locked, full or not saved |
| Guarding.UntriedChangesNothing | desktop/src-tauri/src/lib.rs:228-251 | no other command touches the guard, and an unlock that is not tried changes nothing at all |
| Guarding.TriedIs | desktop/src-tauri/src/lib.rs:241-251 | a right passphrase opens the vault and clears the guard, a wrong one only counts |
| Guarding.GuardCountsTries | desktop/src-tauri/src/lib.rs:228-251 | over every run of commands the guard is that of the wrong passphrases tried since the last right one, and of nothing else |
| Guarding.AppGuessesAreSlow | desktop/src-tauri/src/lib.rs:228-251 | over every run with unlocks one at a time, the n-th wrong passphrase is tried no sooner than all delays since the fourth; from the tenth on 315 + 300 (n - 10) seconds |
| Guarding.FourWrongOnes | desktop/src-tauri/src/lib.rs:228-251 | four wrong passphrases at time 0, and nothing gets through for five seconds |
| Session.CommandAgrees | crates/wallet-rpc/src/dispatch.rs:2060-2079 | a command keeps memory and disk in agreement if and only if it is not an account creation where there is no store |
| Session.EveryRunAgrees | crates/wallet-rpc/src/dispatch.rs:2060-2079 | over every run with saves failing anywhere, a wallet with a store has memory and disk in agreement whenever unlocked |
| Session.AccountsStayApart | crates/wallet-core/src/accounts.rs:38-80 | over every run the accounts differ pairwise in branch and index, address and derived key, and no agent account is visible to two callers |
| Jobs.JobStore.PushActivity | crates/prover/src/jobs.rs:131-143 | the new entry takes the next number and the feed keeps its last 100 entries |
| Jobs.JobStore.Create | crates/prover/src/jobs.rs:74-89 | stores a queued job and records it |
| Jobs.JobStore.SetStatus | crates/prover/src/jobs.rs:91-98 | changes and records a job that is there, and nothing otherwise |
| Jobs.JobStore.Succeed | crates/prover/src/jobs.rs:100-108 | stores the result with the final status and records it |
| Jobs.JobStore.Fail | crates/prover/src/jobs.rs:110-118 | stores the error with the final status and records it |
| Jobs.JobStore.RecentActivity | crates/prover/src/jobs.rs:124-128 | the feed, newest first |
| Jobs.FeedAndStatus | crates/prover/src/jobs.rs:74-143 | for every interleaving the feed is the last 100 entries of the whole history, numbered by position, and stored statuses match it |
| Jobs.JobLifecycle | crates/prover/src/lib.rs:69-134 | a job's entries are a prefix of Queued, Proving and one final status, and the stored status is the latest of them |
| Jobs.FinalStays | crates/prover/src/lib.rs:69-134 | a final status and its result never change |
| JobFacts.JobIs | crates/prover/src/jobs.rs:74-143 | over every interleaving a job has the title and time it was created with, on the feed too, and exactly the result or error its own task ended with |
| Backoff.PassphraseBackoff.Check | crates/wallet-rpc/src/backoff.rs:26-31 | refuses while the delay runs, with exactly the time left |
| Backoff.PassphraseBackoff.RecordFailure | crates/wallet-rpc/src/backoff.rs:34-41 | counts the miss, saturating, and starts the delay due |
| Backoff.PassphraseBackoff.RecordSuccess | crates/wallet-rpc/src/backoff.rs:44-46 | clears the history |
| Backoff.DelayNeverDecreases | crates/wallet-rpc/src/backoff.rs:34-41 | a further miss never shortens the delay, and none exceeds the longest |
| Backoff.DelayTable | crates/wallet-rpc/src/backoff.rs:34-41 | the delays of the first ten misses |
| Backoff.DoublingsCapped | crates/wallet-rpc/src/backoff.rs:37-38 | stopping at 16 doublings keeps the shift inside 32 bits and changes no delay |
| Backoff.GuessesAreSlow | desktop/src-tauri/src/lib.rs:228-251 | with one attempt at a time and no success, the n-th wrong guess is let through at least all delays after the fourth was recorded |
| Backoff.GuessRate | desktop/src-tauri/src/lib.rs:228-251 | from the tenth on that is 315 + 300 (n - 10) seconds |
| Backoff.LetThroughExactly | desktop/src-tauri/src/lib.rs:230-251 | however attempts overlap, a check passes if and only if the delay of the last recorded miss has passed or only free misses were recorded |
| Backoff.OverlapIsNotDelayed | desktop/src-tauri/src/lib.rs:230-251 | any number of attempts that are all checked before the first is recorded pass at once, so the rate is only guaranteed for attempts one at a time |
| ClassHash.FeltRoundTrip | crates/wallet-core/src/class_hash.rs:272-288 | every felt printed as hex reads back as itself |
| ClassInput.FeltSpelled | crates/wallet-core/src/class_hash.rs:272-284 | hex text of any case and with leading zeros is read as the felt whose digits it has |
| ClassInput.ReadExactly | crates/wallet-core/src/class_hash.rs:92-187 | a JSON value is accepted as a class if and only if it spells it: program, version, each list of entry points, and the ABI as text or in the compiler's form |
| ClassInput.BroadcastSpells | crates/wallet-core/src/class_hash.rs:170-187 | the broadcast has exactly the specified fields, the ABI as text, and spells the class |
| ClassInput.RefusedFirst | crates/wallet-core/src/class_hash.rs:92-117 | what is no object, has no program, a compressed or an empty one, or an item that is no felt is refused as that, the first such item being named |
| ClassInput.RefusedNext | crates/wallet-core/src/class_hash.rs:119-148 | then another version, and with nothing else amiss a missing ABI |
| ClassInput.HashIs | crates/wallet-core/src/class_hash.rs:155-165 | what is hashed, in which order |
| ClassHash.ReadsBack | crates/wallet-core/src/class_hash.rs:92-187 | a class reads back from its broadcast form if and only if it has a program and the supported version |
| ClassHash.NormalisingIsIdempotent | crates/wallet-core/src/class_hash.rs:92-187 | whatever was accepted, what is broadcast re-reads as the class that was hashed, and normalising again changes nothing |
| ClassHash.HashCoversTheClass | crates/wallet-core/src/class_hash.rs:155-165 | where the hashes do not collide on what is hashed, equal class hashes mean equal broadcasts |

## Left out

- Real Poseidon, Keccak, curve arithmetic, ECDSA, key derivation and vault encryption: library code, represented by functions with the few laws above.
- HTTP, JSON-RPC, the node reader, the paymaster and the remote provers: a reader is a total function from a view call to felts; that it answers from one block is assumed of the second read (see Prepare.PrepareBatch) and holds of the first.
- The pool's Cairo code and its server actions: not part of the repository; `Pool` and `History` model what the client's code says about them. How an open note is paid for is not modelled.
- Identity keys and the encrypted private key in `crates/strk20/src/hashes.rs`: nothing the planner or discovery does uses them.
- The transaction hash over fees, nonce and proof facts: what is proved is that the calldata it covers determines the batch.
- The u128 sum of `available` and of reported balances is an unbounded number here; the code's sum could only differ for holdings of 2^128 or more.
- Screening, simulation, and the text of approval prompts, errors and warnings.
- PlanMethods.PlanBatch: the randomness source is a value that is passed on, not an object that is updated; nothing else refers to it.
- Prepare.PrepareBatch: each read is of one pool. The second one asks for `latest` call by call and so can span blocks: `Moving.PreparedOverPools` covers that piece by piece, with each channel and the note list still read from one pool, and `Moving.PreparedSurvivesOthers` covers any second read while only others act. Of what follows in the code, prover choice, the user's approval, signing and proving are not modelled.
- Approval.IdsAreDistinct: the counter wraps after 2^64 prompts, as in the code; the other properties hold across the wrap. A user interface that has shut down is not modelled.
- Session.App.UnlockVault: checking the guard, loading the file, trying it and recording the outcome are one step here; `Backoff.LetThroughExactly` treats them as separate. Errors reading the vault file count as no vault. The choice of account contract is not modelled.
- Jobs.JobStore.Create: job ids are numbers here; their text is `p` and the number. The job's storage record is not modelled.
- ClassHash.ReadsBack: decimal text, felts not below the prime and the compiler's ABI formatting are library functions.
- Most of `crates/wallet-rpc/src/dispatch.rs` (parameter parsing, error codes, transport guard), the desktop interface, settings, logs and the command line: listings and plumbing with no state of their own to reason about.
