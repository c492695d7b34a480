# GhostChat in Dafny

A model of GhostChat's protocol core and proofs about it. `dafny verify dfyconfig.toml` checks the
whole project.

HKDF, SHA-256 and the AEAD are symbolic: every use of HKDF with its own salt and info is a free
constructor, a Diffie-Hellman result is the unordered pair of the two public keys, and a ciphertext
opens only under the key, nonce and associated data it was sealed with. Randomness, clocks, sampled
delays, signature verification and the KEM are parameters. Objects that the program updates in place
are classes whose methods are proved equal to functions on values; the properties are proved about
those functions over every call sequence.

| file | subject |
|---|---|
| `Common`, `Kdf`, `BigEndian`, `Base64Url` | vocabulary, key terms, number and text encodings |
| `Stores`, `Ratchet` | the client double ratchet: its two bounded stores and the engine |
| `SingleUse`, `Agreement`, `Delivery`, `ChainLengths`, `OrderIndependence`, `ChainCache` | what the engine keeps over whole runs, alone and in pairs |
| `Retention`, `FirstMessages` | what the bounded stores still hold, and the less usual ways into a session |
| `ForwardSecrecy`, `PostCompromise` | which past and future keys a copied session gives away |
| `PairRatchet`, `SessionManager` | the second ratchet and the replay, fork and ratchet layers above it |
| `ManagedTalk`, `ManagedTurns` | two session managers talking in order and with losses, with fixed keys and with turns |
| `GroupTree`, `GroupState`, `GroupSecrecy` | the secret tree, the epoch machine and what a removed member cannot derive |
| `X3dh`, `PreKeys`, `OneTimeKeys` | the handshake, the prekey bundle and one-time keys over whole runs |
| `SessionStore`, `Saves`, `WireFormat`, `SealedSender` | session files, anti-rollback saves, wire messages, the sealed inner package |
| `Router` | mailboxes and delayed delivery |

## What holds and what does not

Where the code keeps less than its documentation suggests, the model follows the code and the exact
condition is proved.

- At a DH turn the skip loop is given the current counter, so it stores nothing, and the header's `pn`
  is authenticated but not used. A message of an earlier chain that was not skipped before the turn
  therefore makes the receiver turn back to an old key. `Delivery.InStepIffNotLost` proves that a
  delivery keeps the parties in step if and only if the message is not of that kind;
  `Delivery.LateMessageBreaksTheSession` is an ordinary four-message talk that ends out of step.
- `create_initial_state` keeps the root key beside the first chain key derived from it, so message
  keys of the first chain can be computed from the session until its root key moves on. That is the
  only exception: `ForwardSecrecy.UsedKeysAreSafe` proves when a used key can be computed and when
  not, `ForwardSecrecy.FirstMessageIsExposed` is the smallest case.
- Behind the session manager an overtaken message is always refused by the replay cache, so the
  skipped keys kept for it are never used (`SessionManager.OvertakenIsRefused`,
  `SessionManager.StoredKeyIsNeverUsed`).
- The sessions of `create_symmetric_session` never make a DH turn, since both sides know each other's
  key from the start, and each side takes 1024 messages in its life: the replay cache then refuses
  everything. After 1001 lost messages the key store is full for good (`ManagedTalk.InOrderTalk`).
- When the responder's ratchet starts without the initiator's key the sides do take turns, and the
  fork detector refuses the messages of a sender's next chain that are numbered below the last one
  taken: `ManagedTurns.AllGetThroughIff` is the exact condition under which every message that
  arrives in order gets through; `ManagedTurns.SecondLetterStopsTheTalk` is a talk of four messages,
  none of them lost, that stops.
- A refused insertion into the second ratchet's key store leaves the chain key one step further ahead
  of the counter (`PairRatchet.RunDrifts`, `PairRatchet.OverflowDesynchronizes`).
- Adding a fifth member fails after the member was entered, which leaves the stored hash stale
  (`GroupState.AddKeepsKeysIff`, `GroupState.FifthAddLeavesStaleHash`).
- A handshake that is refused late has already used up its one-time prekey
  (`X3dh.RefusalConsumesIff`, `X3dh.LateRefusalConsumes`).
- `deliver_due` cuts the schedule before it looks at recipients, so one due envelope without a
  recipient takes the due envelopes behind it along (`Router.DropsNothingIff`,
  `Router.DeliveryCanLose`).

## Model

| member | source | states |
|---|---|---|
| `Kdf.IterateMeasures` | client/crypto/kdf.py:36-47 | the n-th chain key stays on its chain and under its root, and its position in the chain moves by exactly n |
| `Kdf.IterateInjective` | client/crypto/kdf.py:36-47 | no two iterates of a chain are equal |
| `Stores.ReceivedIdsStore.Add` | client/crypto/double_ratchet.py:145-153 | a number above 32 bits is an error without effect; otherwise the eviction loop and insertion equal Remember: a known id changes nothing, a new one goes last and only the oldest are dropped |
| `Stores.RememberKeepsShape` | client/crypto/double_ratchet.py:145-153 | the window has no repeats, holds the new id, brings in nothing else and stays within capacity |
| `Stores.SkippedMessageKeys.Add` | client/crypto/double_ratchet.py:191-201 | a number above 32 bits is an error without effect; otherwise the eviction loop and assignment equal Store |
| `Stores.SkippedMessageKeys.Pop` | client/crypto/double_ratchet.py:203-207 | a stored key is handed out and its id removed; an absent id is an error without effect |
| `Stores.StoreKeepsShape` | client/crypto/double_ratchet.py:191-201 | ids stay distinct, the store stays within capacity and keeps no key but the new one and old ones of other ids |
| `Stores.RemoveKeepsShape` | client/crypto/double_ratchet.py:203-207 | exactly the entry of that id is gone |
| `Stores.StoreKeepsLast` | client/crypto/double_ratchet.py:199-201 | a full store loses its oldest key and nothing else, also for an id that it holds |
| `Stores.RememberKeepsLast` | client/crypto/double_ratchet.py:151-153 | a full window loses its oldest id and nothing else |
| `Stores.AssignKeepsShape` | client/crypto/double_ratchet.py:201-201 | assigning to a present id keeps every place in the order and every other key |
| `Ratchet.DoubleRatchetEngine.constructor` | client/crypto/double_ratchet.py:503-546 | the initial session for either role, with or without a remote key |
| `Ratchet.DoubleRatchetEngine.StepSendChain` | client/crypto/double_ratchet.py:486-500 | the lazy send turn |
| `Ratchet.DoubleRatchetEngine.RatchetEncrypt` | client/crypto/double_ratchet.py:321-350 | new state and message equal Encrypt, including the case without a sending chain |
| `Ratchet.DoubleRatchetEngine.TurnToRemote` | client/crypto/double_ratchet.py:466-484 | the receive turn: counters, root key, chains and local key |
| `Ratchet.DoubleRatchetEngine.SkipReceivingUntil` | client/crypto/double_ratchet.py:441-455 | the skip loop equals SkipUntil |
| `Ratchet.DoubleRatchetEngine.MakeCurrent` | client/crypto/double_ratchet.py:395-416 | the five-way dispatch equals Prepare |
| `Ratchet.DoubleRatchetEngine.DecryptNext` | client/crypto/double_ratchet.py:417-439 | skipping, taking the next key and opening; a failed opening does not roll back |
| `Ratchet.DoubleRatchetEngine.RatchetDecrypt` | client/crypto/double_ratchet.py:352-439 | new state and outcome equal Decrypt on every path, errors included |
| `Ratchet.SkipUntilKeepsChain` | client/crypto/double_ratchet.py:441-455 | skipping moves the counter to its goal and the chain key by the same number of steps, and touches nothing but these and the store |
| `Ratchet.PrepareReady` | client/crypto/double_ratchet.py:395-417 | from any state the dispatch makes the header's key current with a receiving chain and leaves both stores alone |
| `Ratchet.TakeNextOpens` | client/crypto/double_ratchet.py:417-439 | a text comes out of the chain if and only if the ciphertext opens under the chain's key of the header's number |
| `Ratchet.ReceiveIsBounded` | client/crypto/double_ratchet.py:366-427 | one receive from any state: at most 5001 chain derivations after the dispatch, both stores within capacity, an accepted id is remembered |
| `Ratchet.DuplicateChangesNothing` | client/crypto/double_ratchet.py:366-422 | a duplicate report leaves the session unchanged if a session without remote key has received nothing |
| `Ratchet.OutcomeIff` | client/crypto/double_ratchet.py:366-424 | exactly when a message is answered as duplicate or too far ahead, and exactly when a key is tried |
| `Ratchet.SealingBinds` | client/crypto/double_ratchet.py:58-93 | associated data and nonce bind the ratchet key, the message key and the low 32 bits of the numbers |
| `SingleUse.SendInv` | client/crypto/double_ratchet.py:335-350 | a send takes a key never used before and keeps the engine past every used key |
| `SingleUse.ReceiveInv` | client/crypto/double_ratchet.py:352-455 | a receive with any header and ciphertext takes at most one key, never used before, and keeps the invariant |
| `SingleUse.UsesDistinct` | client/crypto/double_ratchet.py:321-455 | over every call sequence from a sound state all keys taken for sending, direct receiving and skipped receiving are pairwise distinct |
| `SingleUse.SingleUseFromStart` | client/crypto/double_ratchet.py:503-546 | the same from every initial state, so no key serves both directions |
| `SingleUse.ReachableDuplicateChangesNothing` | client/crypto/double_ratchet.py:366-422 | in every reachable session a duplicate report changes nothing |
| `Agreement.OpenedWasSent` | client/crypto/double_ratchet.py:58-93 | a text opened under an unused key of the session was sealed by the other party under that key, number and `pn` |
| `Agreement.RunKeepsInv` | client/crypto/double_ratchet.py:321-439 | the two-party invariant over every run of an adversarial network |
| `Agreement.InjectiveAgreement` | client/crypto/double_ratchet.py:321-439 | dropping, replaying, reordering, reflecting and rewriting headers allowed, every accepted text was sent by the peer with that key and numbers, and no sent message is accepted twice |
| `Delivery.SideReceives` | client/crypto/double_ratchet.py:352-455 | one engine's receive of any honest message that is not lost, relative to the list of chains of the talk |
| `Delivery.DeliverKeepsInv` | client/crypto/double_ratchet.py:399-484 | a delivery keeps the two-party invariant, and the sent text comes out exactly when the message is in reach |
| `Delivery.InvIsLockstep` | client/crypto/double_ratchet.py:466-500 | the root keys are equal or one kdf_root step apart |
| `Delivery.TwoPartyDelivery` | client/crypto/double_ratchet.py:335-500 | in every interleaving of sends and deliveries over any number of turns: lockstep at every point, and each delivery yields the sent text if and only if it is in reach |
| `Delivery.LostSide` | client/crypto/double_ratchet.py:414-416 | the root key, local key and outcome after a lost message |
| `Delivery.InStepIffNotLost` | client/crypto/double_ratchet.py:414-416 | a delivery keeps lockstep if and only if the message is not lost |
| `Delivery.LateMessageBreaksTheSession` | client/crypto/double_ratchet.py:414-416 | a concrete reachable talk in which delivering a late message unchanged ends out of step |
| `ChainLengths.HeadersCount` | client/crypto/double_ratchet.py:335-350 | over every two-party run each header's n counts the messages before it on its chain, and its pn the messages of its sender's previous chain, 0 on the first |
| `ChainLengths.ReceiveCounts` | client/crypto/double_ratchet.py:466-484 | a receive leaves the sending counters alone, and a turn hands Ns on as PN |
| `FirstMessages.InitiatorIsHeard` | client/crypto/double_ratchet.py:503-546 | between two parties that start with each other's key the initiator's first message yields its text |
| `FirstMessages.ResponderIsHeard` | client/crypto/double_ratchet.py:408-413 | so does the responder's, even if it speaks first, and both end with the same root key |
| `FirstMessages.EmptyStateReceives` | client/crypto/double_ratchet.py:457-464 | a state without chains receives on the initial chain of its root key |
| `OrderIndependence.OpensWhich` | client/crypto/double_ratchet.py:399-416 | which chain a session turns to on the first message of a new key: the next of the DH ratchet, or the one a new session waits on |
| `OrderIndependence.DispatchFirst` | client/crypto/double_ratchet.py:395-427 | a message past the first checks is handled as if its key had been current already |
| `OrderIndependence.DeliveryShape` | client/crypto/double_ratchet.py:380-455 | from any session that has seen nothing of a chain, current or not, at every point of a delivery in any order, whichever message came first and made the turn, the session is the function of the set of numbers that arrived |
| `OrderIndependence.SameMessagesSameSession` | client/crypto/double_ratchet.py:380-484 | from the same sessions, two orders of the same messages, each within gap limit and room at every step, yield every text and end with the same root key, chains, local key, counters and skipped keys |
| `OrderIndependence.AnyOrderFits` | client/crypto/double_ratchet.py:380-455 | with room for the numbers up to the last, every permutation is within the limits |
| `OrderIndependence.CompleteDeliveryLeavesNoKeys` | client/crypto/double_ratchet.py:380-484 | when all numbers have arrived, in any order and from before the turn, the skipped keys are what they were and the chain is where in-order delivery leaves it |
| `ChainCache.EvictionSplits` | client/crypto/double_ratchet.py:199-201 | what an insertion pushes out and what stays are disjoint and together the old store |
| `ChainCache.StepFits` | client/crypto/double_ratchet.py:321-455 | every call keeps the session fitting its history |
| `ChainCache.RunFits` | client/crypto/double_ratchet.py:183-210 | in every run without a returning remote key: the chain key is the Nr-th iterate of its start, each stored key is its chain's key of that number, and the numbers taken split into attempted, evicted and stored |
| `Retention.SkipKeepsLast` | client/crypto/double_ratchet.py:441-455 | after a skip of any length the store is the last maxSkipped of what it held followed by the keys passed, in order |
| `Retention.LastSkippedStillOpen` | client/crypto/double_ratchet.py:380-455 | after any receive that skips, each of the last maxSkipped numbers passed still yields its text |
| `Retention.RunsHaveNothingAhead` | client/crypto/double_ratchet.py:399-455 | in every run without a returning remote key a receive starts with nothing stored ahead of it |
| `Retention.WindowIsLastAccepted` | client/crypto/double_ratchet.py:145-153 | over every call sequence the window is the last maxReceived accepted ids in order |
| `Retention.LastAcceptedAreDuplicates` | client/crypto/double_ratchet.py:366-379 | in every run of a new session each of the last 2000 accepted messages is answered as a duplicate, without effect |
| `ForwardSecrecy.SafeIff` | client/crypto/double_ratchet.py:321-500 | of the message keys a session is past, it gives away exactly those stored, and the first chain while the root key is the seed |
| `ForwardSecrecy.UsedKeysAreSafe` | client/crypto/double_ratchet.py:503-546 | after every call sequence a used key can be computed from the whole session and all DH results if and only if it is of the first chain and the root key has not moved on |
| `ForwardSecrecy.FirstMessageIsExposed` | client/crypto/double_ratchet.py:503-546 | the key of a new initiator's first message can be computed from the root key it still holds |
| `PostCompromise.RootComputableIff` | client/crypto/double_ratchet.py:466-500 | a later root key can be computed from a copied session if and only if every DH result since can be |
| `PostCompromise.SessionHeals` | client/crypto/double_ratchet.py:321-500 | after a DH result that cannot be computed, in every further call sequence no root key and no message key of a chain opened later can be computed from the copy |
| `PostCompromise.CreatedIsReachable` | client/crypto/double_ratchet.py:503-546 | every session that calls lead to from its creation is one of those |
| `PairRatchet.DoubleRatchet.constructor` | ratchet/double_ratchet.py:57-97 | the initial session of the second ratchet |
| `PairRatchet.DoubleRatchet.EncryptMessage` | ratchet/double_ratchet.py:99-123 | new state and message equal Encrypt |
| `PairRatchet.DoubleRatchet.SkipMessageKeys` | ratchet/double_ratchet.py:167-179 | the skip loop equals SkipUntil, including the refusal of a full store in the middle |
| `PairRatchet.DoubleRatchet.MakeCurrent` | ratchet/double_ratchet.py:138-152 | the dispatch and the DH turn equal Prepare |
| `PairRatchet.DoubleRatchet.DecryptMessage` | ratchet/double_ratchet.py:125-165 | new state and outcome equal Decrypt on every path |
| `PairRatchet.SkipShape` | ratchet/double_ratchet.py:167-179 | what a skip can change, where it ends and which ids it stores |
| `PairRatchet.SkipInSyncIff` | ratchet/skipped_keys.py:21-24 | from any state, chain key and counter move together if and only if before its last insertion the store, grown by the numbers it did not hold, has room; otherwise the chain key is one ahead |
| `PairRatchet.ReceiveDrifts` | ratchet/double_ratchet.py:125-165 | a receive meets a refusal if and only if the skip from its counter, 0 after a turn, overflows the store |
| `PairRatchet.RunDrifts` | ratchet/double_ratchet.py:125-179 | over every run the chain key is ahead of the counter by exactly the number of refusals on the current chain, so they agree if and only if there were none |
| `PairRatchet.OverflowDesynchronizes` | ratchet/skipped_keys.py:21-24 | a new responder with room for two keys that gets message 3 ends out of step and rejects the honest message 2 |
| `PairRatchet.SkipStores` | ratchet/double_ratchet.py:167-179 | a skip, whole or refused, stores exactly the keys of the numbers it passed |
| `PairRatchet.TakeNextOpens` | ratchet/double_ratchet.py:150-163 | with room for the skip a message moves chain and counter past its number, opened or not, and yields its text if and only if it opens under its number's key |
| `PairRatchet.HonestOpens` | ratchet/double_ratchet.py:125-163 | from any session that has not drifted, an honest message at or ahead of the counter yields its text and the numbers passed are stored with their own keys |
| `PairRatchet.OvertakenOpens` | ratchet/double_ratchet.py:132-136 | each of those numbers then yields its text too, and its entry is gone |
| `PairRatchet.StoredOpensOnce` | ratchet/double_ratchet.py:132-136 | a stored key is taken out by the first message with its number, opened or not |
| `PairRatchet.DuplicateIff` | ratchet/double_ratchet.py:152-153 | exactly when a message is a duplicate, and then nothing changes |
| `SessionManager.ReplayCache.AcceptEnvelope` | protocol/replay_protection.py:28-52 | verdict and new cache equal Accept |
| `SessionManager.ForkState.DetectFork` | protocol/fork_detection.py:27-61 | verdict and new record equal Progress |
| `SessionManager.SessionContext.constructor` | client/session_manager.py:49-73 | a new session context |
| `SessionManager.SessionContext.DecryptFrom` | client/session_manager.py:98-123 | the three layers in sequence equal Receive, with the cache kept when a later layer refuses |
| `SessionManager.DecryptStores` | ratchet/double_ratchet.py:167-179 | a ratchet step stores only numbers of the message's key below the message's number |
| `SessionManager.ReachingMissesStore` | client/session_manager.py:98-123 | a message that passes replay and fork checks never finds its key among the skipped ones |
| `SessionManager.RunKeepsInv` | client/session_manager.py:98-123 | over every run each stored id lies below the cache's highest for its key, and all that passed is on record in both detectors |
| `SessionManager.LayeredReceive` | client/session_manager.py:185-198 | over every run numbers strictly increase per session id and key, and numbers and `pn` never decrease, among the messages that reach the ratchet |
| `SessionManager.ReachesIff` | client/session_manager.py:98-123 | over every run an envelope reaches the ratchet if and only if it is new to the cache, the cache has room, its number is not below the highest taken for its key, and neither number is below one that passed; the recorded reset reason names the layer that refused |
| `SessionManager.OvertakenIsRefused` | protocol/replay_protection.py:28-52 | a message overtaken on its chain is refused and the ratchet is untouched |
| `SessionManager.StoredKeyIsNeverUsed` | client/session_manager.py:98-123 | a concrete session that stores the key of message 0 and refuses message 0 |
| `ManagedTalk.InOrderTalk` | client/session_manager.py:49-123 | two sessions made for each other: in every interleaving of sends, losses and in-order deliveries a message handed over yields its text if and only if fewer than 1024 were handed over and at most 1000 lost before it, and no ratchet key ever changes |
| `ManagedTurns.SideDetects` | protocol/fork_detection.py:44-61 | when everything handed over so far got through, the detectors pass the next message if and only if the cache has room and neither of its numbers is below the last one taken |
| `ManagedTurns.NextGetsThroughIff` | client/session_manager.py:81-123 | that, and room for the numbers it skips, decide whether the next message of a talk with turns and losses yields its text |
| `ManagedTurns.AllGetThroughIff` | client/session_manager.py:81-123 | all messages handed over in order get through if and only if every delivery meets it |
| `ManagedTurns.SecondLetterStopsTheTalk` | protocol/fork_detection.py:44-61 | two messages, a reply and an answer, all in order: the answer is refused |
| `GroupTree.Tree.ForMemberCount` | group/group_state.py:39-56 | one to four members give an empty tree of four leaves, any other count is an error |
| `GroupTree.Tree.SetLeaf` | group/group_state.py:66-69 | after any update every node equals the recursive derivation from the leaves; only that leaf changed |
| `GroupTree.Tree.RecomputePath` | group/group_state.py:71-81 | walking up one path with the early stop restores agreement of every inner node with its children |
| `GroupTree.AgreementIsRebuild` | group/group_state.py:71-81 | for any number of leaves, local agreement is the same as a rebuild |
| `GroupTree.SetIffLeavesSet` | group/group_state.py:71-81 | a node is set if and only if every leaf below it is |
| `GroupTree.RootOfFour` | group/group_state.py:71-81 | the root of four leaves, written out |
| `GroupState.SortIgnoresOrder` | group/key_schedule.py:56-69 | sorting identities gives the same list for every order of the dictionary |
| `GroupState.HashIgnoresOrder` | group/group_state.py:244-259 | the group hash does not depend on the order of the members |
| `GroupState.HashBindsIff` | group/key_schedule.py:56-69 | two hashes are equal if and only if group id, epoch, root and identities are |
| `GroupState.CreatedOk` | group/group_state.py:110-161 | a created group has members and leaves in order, fillers behind them, a root and current keys of epoch 1 |
| `GroupState.AddKeepsGroup` | group/group_state.py:177-222 | an add succeeds if and only if the member is new and there are fewer than four; then its leaf is the number of members before, no other leaf changes and keys are current for the next epoch; a failed one changes nothing, or only enters the fifth member |
| `GroupState.RemoveKeepsGroup` | group/group_state.py:224-242 | a removal succeeds if and only if the member is there; then exactly that member is gone, its own leaf holds the replacement, no other leaf changes and keys are current for the next epoch; a failed one changes nothing |
| `GroupState.AddKeepsKeysIff` | group/group_state.py:188-203 | an add leaves the stored material current if and only if it is refused up front or a leaf is free |
| `GroupState.FifthAddLeavesStaleHash` | group/group_state.py:188-203 | a created group of four and a failed fifth add: the member is entered and the stored hash is stale |
| `GroupState.FifthAddIsReported` | group/group_state.py:275-278 | every failed fifth add is reported as a wrong hash by validation |
| `GroupState.BasicProblemsAre` | group/group_state.py:261-279 | each basic problem is reported exactly when its condition holds |
| `GroupState.RunKeepsGroup` | group/group_state.py:163-242 | over every run of successful changes the epoch counts them and secret, application key and hash are the schedule of the current root, epoch and members |
| `GroupState.OnlyEmptiness` | group/group_state.py:261-280 | after successful operations validation can only complain about emptiness or a reused leaf |
| `GroupState.State.Create` | group/group_state.py:110-161 | exactly the well-formed member lists give a group, and it is the specified one |
| `GroupState.State.Rederive` | group/group_state.py:163-175 | the three stored values are rederived, or nothing changes without a root |
| `GroupState.State.Add` | group/group_state.py:177-222 | new state and success equal AddMember, the failed fifth add included |
| `GroupState.State.Remove` | group/group_state.py:224-242 | new state and success equal RemoveMember |
| `GroupState.State.Rekey` | group/group_state.py:216-242 | one leaf set, the epoch advanced and the keys rederived |
| `GroupState.State.ComputeGroupHash` | group/group_state.py:244-259 | the hash of the current configuration |
| `GroupState.State.Validate` | group/group_state.py:261-286 | the basic problems, then one report for every member whose leaf an earlier member has |
| `GroupState.ReportedIff` | group/group_state.py:280-285 | a leaf is reported if and only if two members share it |
| `GroupState.NoRepeatsIff` | group/group_state.py:280-285 | no leaf is reported if and only if no two members share one |
| `GroupSecrecy.DerivableAtoms` | group/key_schedule.py:20-53 | any number of derivation steps brings in no random value that the known secrets were not made from |
| `GroupSecrecy.NodeContainsLeaf` | group/group_state.py:71-81 | every node is made from every leaf below it |
| `GroupSecrecy.RunDraws` | group/group_state.py:177-242 | all along a run the leaves are made from values drawn before it and by its operations |
| `GroupSecrecy.NewLeafHidesKeys` | group/key_schedule.py:20-53 | one leaf with a new random value hides root, epoch secret and application key from everything known before |
| `GroupSecrecy.RemovalHoldsForever` | group/group_state.py:224-242 | after a removal, in every later epoch of every run with fresh draws, no root, epoch secret or application key is derivable from the state held before and everything drawn before |
| `GroupSecrecy.RemovedValueIsGone` | group/group_state.py:224-242 | unless another leaf was made from it or it is drawn again, the removed member's random value is in no root, epoch secret or application key of any later epoch |
| `X3dh.TranscriptIff` | client/crypto/x3dh.py:77-90 | two transcripts are equal if and only if their terms are, no OPK being the same as id 0xFFFFFFFF |
| `X3dh.TranscriptLayout` | client/crypto/x3dh.py:77-90 | the bytes of the transcript in order |
| `X3dh.InitiateCompletesIff` | client/crypto/x3dh.py:108-188 | the exact condition under which an initiation completes |
| `X3dh.InitiatorExchanges` | client/crypto/x3dh.py:139-175 | what goes into the initiator's root key: the three or four DH results in order, and the KEM secret if hybrid |
| `X3dh.ResponderExchanges` | client/crypto/x3dh.py:226-262 | the same for the responder, by the same public keys |
| `X3dh.RefusedBecause` | client/crypto/x3dh.py:205-238 | why a response is refused, in the order of the checks |
| `X3dh.RespondTo` | client/crypto/x3dh.py:191-271 | new bundle and outcome equal Respond, with every refusal at its place in the order |
| `X3dh.RootAgreement` | client/crypto/x3dh.py:108-271 | with matching bundles, with or without OPK, classical or hybrid, the responder derives the initiator's root key and digest and the OPK is used up |
| `X3dh.RootBinds` | client/crypto/x3dh.py:77-90 | equal root keys come from equal terms and equal DH results, for every OPK id |
| `X3dh.EqualRootsBind` | client/crypto/x3dh.py:130-271 | any initiator and any responder with equal root keys have equal identities, SPK, ephemeral key, OPK id and suite, and the responder holds the private halves of that SPK and OPK |
| `X3dh.ResponderConcludes` | client/crypto/x3dh.py:208-248 | a completed response has the bundle's own suite: a hybrid bundle is never downgraded |
| `X3dh.RespondCompletesIff` | client/crypto/x3dh.py:191-271 | the exact condition under which a response completes |
| `X3dh.RefusalConsumesIff` | client/crypto/x3dh.py:230-262 | a refused handshake has used up an OPK if and only if the early checks passed, the key was there and a late check failed |
| `X3dh.LateRefusalConsumes` | client/crypto/x3dh.py:242-244 | a hybrid bundle without a KEM at hand: refused, and the OPK is gone |
| `PreKeys.ClientPreKeyBundle.ConsumeOneTimePreKey` | client/crypto/prekey.py:61-71 | an available key is handed out and recorded, anything else is an error without effect |
| `PreKeys.ConsumeConserves` | client/crypto/prekey.py:61-71 | available and used ids stay disjoint, without repeats, and together the same set |
| `PreKeys.SortedIsSorted` | client/crypto/prekey.py:138-141 | the saved list is strictly ascending in the ids |
| `PreKeys.LoadPool` | client/crypto/prekey.py:245-258 | the restoring loop equals RestorePool, skipped and malformed entries included |
| `PreKeys.EntryRestored` | client/crypto/prekey.py:247-258 | an entry with a used id is passed over whatever it holds, any other must decode |
| `PreKeys.RestoredIsComplete` | client/crypto/prekey.py:228-271 | whatever a file contains, a bundle is read only from version 1 and with every private field, each as it decodes |
| `PreKeys.RestoreSaved` | client/crypto/prekey.py:122-154 | a saved bundle is read back exactly, minus keys whose ids are recorded as used |
| `PreKeys.RestoreSavedIff` | client/crypto/prekey.py:228-271 | it is read back unchanged if and only if no available id is recorded as used |
| `OneTimeKeys.RunConserves` | client/crypto/x3dh.py:230-238 | over every run of handshakes, completed or refused, and save-restore cycles, available and used ids are disjoint and together the original ones, and every key is accounted for |
| `OneTimeKeys.NoKeyTwice` | client/crypto/x3dh.py:230-238 | no one-time prekey enters two key derivations |
| `BigEndian.ReadBig` | client/crypto/double_ratchet.py:104-122 | numbers below the limit survive printing at any width |
| `BigEndian.BigRead` | client/crypto/double_ratchet.py:104-122 | any bytes are the printed form of the number read from them |
| `BigEndian.Layouts` | protocol/sealed_sender.py:38-46 | the most significant byte comes first |
| `Base64Url.RoundTrip` | client/session_store.py:27-39 | decoding with restored padding undoes encoding with stripped padding, for every byte string |
| `Base64Url.EncodeInjective` | client/session_store.py:27-28 | different byte strings have different texts |
| `Base64Url.EncodeIsUrlSafe` | client/session_store.py:27-28 | encoded text is URL-safe, unpadded and of the expected length |
| `Base64Url.Alphabet` | client/session_store.py:27-28 | the alphabet in order |
| `SessionStore.IdRoundTrip` | client/crypto/double_ratchet.py:104-122 | the 36-byte index of a message id is read back |
| `SessionStore.IndexLayout` | client/crypto/double_ratchet.py:104-115 | the index is the key's bytes followed by the number, most significant byte first |
| `SessionStore.SkippedRoundTrip` | client/crypto/double_ratchet.py:212-262 | skipped keys are read back in order |
| `SessionStore.ReceivedRoundTrip` | client/crypto/double_ratchet.py:155-179 | the replay window is read back in order |
| `SessionStore.SaveSkipped` | client/crypto/double_ratchet.py:212-228 | the saving loop equals SkippedToDict |
| `SessionStore.LoadSkipped` | client/crypto/double_ratchet.py:230-262 | the loading loop with its limit equals DictToSkipped |
| `SessionStore.LoadReceived` | client/crypto/double_ratchet.py:159-179 | the loading loop equals ListToReceived |
| `SessionStore.SessionRoundTrip` | client/session_store.py:49-163 | every well-formed session is read back exactly as saved |
| `SessionStore.LoadedIsWellFormed` | client/session_store.py:81-163 | whatever a file contains, a session read from it is well-formed |
| `SessionStore.MissingFieldsAreDefaults` | client/session_store.py:113-150 | a file without counters, version or stores is read as if it held the defaults |
| `SessionStore.LoadedSurvivesSaving` | client/session_store.py:49-163 | so what could be read once survives further saves |
| `Saves.SessionFile.Save` | client/session_store.py:185-208 | a save is refused if and only if the file's version is higher, and then changes nothing |
| `Saves.SessionFile.Load` | client/session_store.py:223-231 | nothing without a file, an error for an unreadable one, else its session |
| `Saves.RollsBackIff` | client/session_store.py:190-194 | a save is refused only by a file that claims a higher version |
| `Saves.LoadIsLastWrite` | client/session_store.py:223-231 | a load gives back the last write, under whatever limit lets it through |
| `Saves.SaveSucceedsIffCurrent` | client/session_store.py:185-197 | a save goes through if and only if the copy has seen everything ever written |
| `Saves.SavesAreCompareAndSwap` | client/session_store.py:185-208 | over every interleaving of copies the history of the file is a single line, extended only by up-to-date copies, and the version is one more than the number of writes |
| `Saves.DiskNeverRollsBack` | client/session_store.py:185-208 | the version on disk never decreases and the file changes only with it |
| `WireFormat.PrintedIsReadIffInRange` | client/crypto/message.py:46-118 | a printed message is read back unchanged if it is in range and refused otherwise |
| `WireFormat.ReadIsInRange` | client/crypto/message.py:72-118 | only messages in range get through, and they survive being sent on |
| `WireFormat.ReadIff` | client/crypto/message.py:72-118 | a dictionary is read as a message if and only if its fields decode to the message's, in whatever spelling, and it is in range |
| `SealedSender.ParsePrinted` | protocol/sealed_sender.py:35-49 | parsing what was printed gives the package with its counters modulo 2^32, unless an id or the key is empty |
| `SealedSender.PrintParsed` | protocol/sealed_sender.py:52-103 | printing what was parsed gives the bytes back |
| `SealedSender.AcceptedIffPrinted` | protocol/sealed_sender.py:35-103 | the parser accepts exactly the printed packages in range, each as itself |
| `SealedSender.Layout` | protocol/sealed_sender.py:35-49 | the bytes of a package in order |
| `SealedSender.Reader.ReadBytes` | protocol/sealed_sender.py:72-78 | reading advances the offset by what it returns, or fails on truncation |
| `SealedSender.ReadInner` | protocol/sealed_sender.py:80-94 | the sequence of reads with a shared offset equals Parse |
| `SealedSender.ParseInner` | protocol/sealed_sender.py:52-103 | a result is a package in range that prints to the input, and no result means that no such package does |
| `Router.Router.Enqueue` | server/router.py:44-46 | the envelope goes last into its mailbox, created if missing |
| `Router.Router.EnqueueByEnvelope` | server/router.py:48-64 | delayed envelopes are scheduled unseen, others routed or refused |
| `Router.RouteIff` | server/router.py:19-31 | a locator wins over a legacy recipient, which must not be empty |
| `Router.SubmittedTo` | server/router.py:48-64 | an undelayed envelope goes to the end of that mailbox and no other changes |
| `Router.Router.DeliverDue` | server/router.py:66-85 | the partition loop and the delivery loop equal Deliver, the abort at an envelope without recipient included |
| `Router.Router.DequeueAll` | server/router.py:87-93 | the mailbox is handed out and left empty |
| `Router.CutConserves` | server/router.py:74-81 | cutting the schedule neither loses nor adds envelopes |
| `Router.RunKeepsInv` | server/router.py:44-93 | over every run each accepted envelope is in exactly one of schedule, released and dropped; handed out and mailbox together are what was released to that recipient, in order; and every delayed envelope left the schedule in a delivery whose own clock reading had reached its time |
| `Router.TickIsPrompt` | server/router.py:66-85 | a delivery leaves only envelopes that are due after it |
| `Router.DropsNothingIff` | server/router.py:66-85 | a delivery drops nothing if and only if every due envelope has a recipient |
| `Router.DeliveryCanLose` | server/router.py:66-85 | a concrete schedule that loses a routable envelope |
| `Router.RoutableRunDropsNothing` | server/router.py:19-31 | if only routable envelopes are delayed no run drops any |
| `Router.OrderIsPreserved` | network/mix_router.py:57-60 | with a fixed delay and a clock that does not go back each recipient gets the envelopes in the order sent |

## Left out

- Unsealing across sessions in `decrypt_sealed`: it depends on both root keys being equal at that moment; what follows a successful unseal is `SessionManager.Receive`.
- WebSocket client and server, command line, asyncio tasks, logging and file system calls; `save_session` and `load_session` are one atomic step each and files always hold a dictionary.
- The internals of X25519, Ed25519, HKDF, ChaCha20-Poly1305 and the KEM, and collisions between them: the constructors are free. The group hash is one constructor over its inputs, so ambiguity of the concatenated bytes is not modelled.
- Key lengths in the ratchet and group modules: keys there are terms. Lengths are modelled in `X3dh`, `PreKeys`, `SessionStore`, `WireFormat` and `SealedSender`.
- Private keys of a wrong length inside the responder's own bundle: the library refuses them when the key object is built, which happens outside the modelled steps.
- Sessions whose local DH key is missing, and FIFO stores of capacity zero, for which the eviction loops are not defined.
- Ratchet.DoubleRatchetEngine.RatchetDecrypt: headers with counters of 2^32 and above are left out, because the wire parser refuses them and the engine would meet them only after 2^32 messages on one chain.
- Stores.SkippedMessageKeys.Add: the length checks on the key and the message key are left out, because keys there are terms.
- Delivery between sessions created with a remote key: `create_initial_state` generates the local key itself, so at most one party can know the other's key in advance, and the client never passes one.
- Group operations after a failed fifth add, epochs of 2^64 and above, group messages and their replay cache.
- The public bundle as a dictionary (`PeerBundle.from_dict`): the initiator's input is the parsed value.
- Python type checks on JSON values, and exception texts; an error is a value that says which check failed where callers can tell.
- Cover traffic, dummy packets, jitter and random delays; the router takes the sampled delay as a parameter.
- The legacy `SessionCrypto`, the Phase 1 `crypto/x3dh.py`, `GroupRatchet`, and the storage, transport, bootstrap and key manager skeletons.
- Agreement.InjectiveAgreement: states `pn` modulo 2^32, because the associated data holds only 32 bits of it and a sender's own counter is not bounded.
