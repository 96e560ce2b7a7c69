# Private Chat: a verified model

A Dafny model of the parts of the private-chat application on which its privacy
and delivery promises rest, with proofs of those promises.

- `text.dfy`, `base64url.dfy`: JavaScript strings as UTF-16 code units, their
  UTF-8 bytes (section 3 of RFC 3629), and the unpadded base64url codec (section
  5 of RFC 4648) on top of `btoa` and the forgiving `atob` of the WHATWG Infra
  standard.
- `signed_data.dfy`, `envelope.dfy`, `payloads.dfy`: the byte strings that
  identity-v2 signatures cover, the `iv.messageId.ciphertext` envelope with its
  size budget, and the inner plaintexts.
- `replay_cache.dfy`, `channel_store.dfy`: the dedup cache and the receiving
  store, each as a class whose methods are proved against functions on values.
  A handler is cut at its awaits; a suspended handler is a value (`Pending`).
- `receive_runs.dfy`, `handler_effects.dfy`, `replay_runs.dfy`, `timeline_runs.dfy`:
  runs in which handlers interleave freely: trust on first use, replay safety across
  key rotations, and where each entry of the timeline comes from.
- `end_to_end.dfy`, `rotation.dfy`: `sendMessage` composed with the receiving
  side; a rotating member followed by the others, and several rotating members.
- `limiter.dfy`, `manager.dfy`, `server_runs.dfy`, `relay_runs.dfy`: the rate limiter,
  the channel manager with its two indexes, handler loops and sweeps interleaving on
  it, and who is in a room, is relayed and hears of it.
- `transport.dfy`: the reconnecting socket against an adversarial browser.
- `invite.dfy`: invite links.
- `json_witness.dfy`: the one law asked of JSON text can be met.

Cryptography is ideal. AES-GCM is a table of what was sealed: a ciphertext opens
only as the record it was made for, under that key and associated data (room and
message-id string). Ed25519 is a table of what was signed. Both tables are finite
maps, so the assumption is satisfiable. Nonces, message ids, signature and
ciphertext bytes are choices of the environment, assumed fresh where the code
draws them at random. JSON text is a pair of functions with one law
(`Payloads.Lawful`): parsing undoes printing, and printed objects are well-formed
text that starts with a brace (`JsonWitness.LawfulJsonExists` gives such a pair).
Times are integers read from a clock that does not
go back. Each locked Go method is one step.

Where a promise does not hold on every input, the model keeps the code as it is,
shows the input, and states exactly when the promise holds:

- A valid envelope that arrives is dropped as a replay if and only if a handler of
  its message id has taken the id in, with no key installed and fewer than 1000 ids
  taken in since (`ReplayRuns.CopyDroppedIff`). So copies that arrive before the
  first handler has ended are let in, and what is let in is shown
  (`ReplayRuns.LetInIsShown`, `ReplayRuns.OverlappingCopiesBothShown`).
- A message whose claimed nickname is not valid is sent and then ignored by every
  peer (`EndToEnd.TextArrives`); `sendMessage` does not check the nickname. The app
  checks each nickname before it stores it (`frontend/src/App.svelte:360`, `:414`,
  `:472`) and falls back to "Anonymous", so only another user of `setSelfNick` can
  get there.
- Garbage collection of a rate window can be observed if and only if one key is
  used with different durations (`Limiters.CollectionVisible`).
- A `joined` frame can say 0 online when more than a day passes between join and
  count (`ServerRuns.LateCountSaysZero`).
- Items are written in the order they were accepted if and only if no status
  handler, while "open" is announced, has a new item written before a queued one
  that is then written too (`Transports.RunKeepsOrder`, `Transports.OpenEventOrder`).
- A key update reaches a member if and only if the member is on the key it was
  wrapped under (`Rotation.UpdateTakenIff`); two concurrent rotations therefore leave
  members on different keys (`Rotation.ConcurrentRotationsDiverge`).
- A link on the host `r` is misread (`Invites.WebLinkRoundTrip`).

Two remarks on the documentation. SECURITY.md speaks of a 16-byte message id; the
cache compares its base64url spelling, and one id has several
(`Base64Url.DecodeIgnoresUnusedBits`). This is sound because the associated data
covers the spelling (`Envelopes.OneReading`). SECURITY.md and the comment at
`backend/internal/ws/transport.go:186` put the worst case of the 10 per second
limit at about 20; over closed intervals of one second it is exactly 19
(`Limiters.SlidingBound`, `Limiters.SlidingBoundAttained`).

## Model

| member | source | states |
|---|---|---|
| Text.TextEncodeInjective | frontend/src/identity.ts:41-43 | two strings have equal UTF-8 bytes if and only if they agree up to the U+FFFD replacement of lone surrogates |
| Text.TextRoundTrip | frontend/src/e2ee.ts:158-203 | decoding the encoding of a string gives its well-formed version, minus a leading byte order mark |
| Text.TrimDrops | frontend/src/e2ee.ts:232-239 | trimming takes off outer white space, all of it and nothing else |
| Base64Url.Base64UrlEncode | frontend/src/e2ee.ts:93-100 | the byte loop, `btoa` and the replacements compute the RFC 4648 sextets in the URL alphabet, unpadded |
| Base64Url.Base64UrlDecode | frontend/src/e2ee.ts:102-112 | the replacements, padding, `atob` and the byte loop compute the decoder, exceptions included |
| Base64Url.DecodeUrl | frontend/src/e2ee.ts:102-112 | on the URL alphabet decoding fails exactly for lengths of remainder 1 mod 4 and otherwise reads the sextets |
| Base64Url.AlphabetTables | frontend/src/e2ee.ts:93-112 | the two alphabets are those of RFC 4648, tables 1 and 2 |
| Base64Url.RoundTrip | frontend/src/e2ee.ts:93-112 | decoding undoes encoding for every byte string, whose encoding has 4n/3 characters, rounded up, of the alphabet |
| Base64Url.Canonical | frontend/src/e2ee.ts:93-112 | re-encoding a decoded string gives it back if and only if it is in the alphabet and its unused trailing bits are zero |
| Base64Url.DecodedLength | frontend/src/e2ee.ts:31-55 | 12, 16 and 32 decoded bytes are exactly 16, 22 and 43 characters |
| Base64Url.DecodeIgnoresUnusedBits | frontend/src/e2ee.ts:102-112 | strings that differ in unused bits only decode alike, so an id has several spellings |
| SignedData.DecimalInjective | frontend/src/identity.ts:41-43 | printed length prefixes determine the length |
| SignedData.DecimalNames | frontend/src/identity.ts:41-43 | a printed length read as a decimal number is the length, without leading zeros |
| SignedData.SignedFormat | frontend/src/identity.ts:140-142 | the signed strings in full: tag, room, id and framed fields in this order |
| SignedData.FrameUnique | frontend/src/identity.ts:35-43 | a length-prefixed field followed by anything is read in one way only |
| SignedData.MessageSigDataInjective | frontend/src/identity.ts:134-142 | messages are signed over equal bytes if and only if room, id, nick and text agree (nick and text up to replacement) |
| SignedData.NickSigDataInjective | frontend/src/identity.ts:234-237 | the same for nickname claims |
| SignedData.WellFormedSigDataInjective | frontend/src/identity.ts:134-142 | with well-formed nick and text the signed bytes determine all four fields |
| SignedData.DomainsSeparate | frontend/src/identity.ts:134-142 | no message is ever signed over the bytes of a nickname claim |
| SignedData.BareJoinNotInjective | frontend/src/identity.ts:35-40 | the identity-v1 join of nick and text can be split in two ways, for every choice of the parts |
| SignedData.LoneSurrogateCollides | frontend/src/identity.ts:134-142 | the replacement clause is needed: a lone surrogate and U+FFFD sign alike |
| Envelopes.SplitJoin | frontend/src/e2ee.ts:38-61 | splitting three dot-free parts joined by dots gives the parts |
| Envelopes.JoinSplit | frontend/src/e2ee.ts:38-61 | a string that splits into three parts is their join |
| Envelopes.ValidEnvelopeShape | frontend/src/e2ee.ts:38-55 | an envelope is valid if and only if it is base64url parts of 16, 22 and at least 22 characters, the last decodable |
| Envelopes.BudgetExact | frontend/src/codec.ts:61-88 | an envelope fits the 8192 wire limit if and only if its plaintext has at most 6098 bytes |
| Envelopes.EncryptDecrypt | frontend/src/e2ee.ts:162-204 | every envelope made passes the check, yields its own id, has 40 + 4(n+16)/3 characters rounded up, and decrypts to the plaintext |
| Envelopes.AadInjective | frontend/src/e2ee.ts:177 | the associated data determines room and message-id string |
| Envelopes.OneReading | frontend/src/e2ee.ts:187-204 | a sealed record opens under one key, one room and one spelling of its message id |
| Payloads.ClaimsAreStructured | frontend/src/identity.ts:156-230 | no plaintext is both a current and a stale claim, and both kinds are tagged payloads, never raw text |
| Payloads.SignedRoundTrip | frontend/src/identity.ts:145-178 | a wrapped message survives encoding and parses to its fields if and only if its nickname is valid |
| Payloads.StaleRecognized | frontend/src/identity.ts:188-212 | every v1 claim is recognized with its public key and is no current message |
| Payloads.KeyRoundTrip | frontend/src/e2ee.ts:133-229 | exporting, wrapping, unwrapping and importing a key gives the same key |
| Payloads.KeysImport | frontend/src/e2ee.ts:133-143 | every 43-character key imports |
| Payloads.ImportsIff | frontend/src/e2ee.ts:133-143 | text imports if and only if it is a 43-character key, white space around it aside |
| Payloads.NickRoundTrip | frontend/src/e2ee.ts:277-295 | a signed nickname update parses to the trimmed name, key and signature it was made of |
| Payloads.RoomNameRoundTrip | frontend/src/e2ee.ts:241-261 | a room-name update parses to the trimmed name and its announcement mark |
| Payloads.SignatureBindsFields | frontend/src/identity.ts:180-186 | one signature cannot verify for two different rooms, ids, nicks or texts (up to replacement) |
| Payloads.SignedReadIff | frontend/src/identity.ts:161-178 | an object is read as a signed message if and only if it has exactly these fields in these shapes |
| Payloads.StaleReadIff | frontend/src/identity.ts:199-215 | likewise for an identity-v1 claim |
| Payloads.NickReadIff | frontend/src/e2ee.ts:277-295 | likewise for a nickname update; ill-formed identity fields count as absent |
| Payloads.RoomNameReadIff | frontend/src/e2ee.ts:241-261 | likewise for a room-name update |
| Payloads.KeyReadIff | frontend/src/e2ee.ts:210-229 | likewise for a wrapped key |
| Payloads.RawTextUnread | frontend/src/identity.ts:161-230 | text without a leading brace, or that is no JSON object, carries no claim |
| Payloads.VerifiedIff | frontend/src/identity.ts:180-186 | a signature holds if and only if 32 and 64 bytes were issued for exactly the signed text |
| Payloads.FingerprintIsPrefix | frontend/src/identity.ts:65-67 | fingerprints agree if and only if the first ten characters of the keys do |
| ReplayCaches.ReplayCache.constructor | frontend/src/e2ee.ts:65-71 | an empty log |
| ReplayCaches.ReplayCache.Has | frontend/src/e2ee.ts:72-74 | answers membership in the last `max` log entries |
| ReplayCaches.ReplayCache.Add | frontend/src/e2ee.ts:75-83 | appends to the log unless remembered; set and queue stay equal, free of duplicates and the last `max` entries |
| ReplayCaches.ReplayCache.Clear | frontend/src/e2ee.ts:84-87 | empties the log |
| ReplayCaches.ReplayCache.Size | frontend/src/e2ee.ts:88-90 | the size of the set is that of the window |
| ReplayCaches.RecentDistinct | frontend/src/e2ee.ts:63-91 | the remembered ids are pairwise distinct in every reachable log |
| ReplayCaches.RememberedFor | frontend/src/e2ee.ts:63-91 | an id is remembered if and only if fewer than `max` insertions of other ids followed |
| ChannelStores.ChannelStore.constructor | frontend/src/channel.svelte.ts:162-167 | a fresh store |
| ChannelStores.ChannelStore.OnFrame | frontend/src/channel.svelte.ts:193-402 | a frame up to the first await: checks, replay drop, banners, and what is captured |
| ChannelStores.ChannelStore.OnDecrypted | frontend/src/channel.svelte.ts:221-260 | all branches after decryption: failure, signed, stale, unknown, raw |
| ChannelStores.ChannelStore.OnVerified | frontend/src/channel.svelte.ts:226-235 | the end of the signed branch, valid or invalid |
| ChannelStores.ChannelStore.Render | frontend/src/channel.svelte.ts:257-289 | id remembered, bubble, one-time conflict announcement, connection fingerprint |
| ChannelStores.ChannelStore.Record | frontend/src/channel.svelte.ts:421-431 | pins an unpinned nickname, answers verified or conflict |
| ChannelStores.ChannelStore.OnKeyImported | frontend/src/channel.svelte.ts:306-324 | the switch to a shared key, cache cleared and the update's id kept |
| ChannelStores.ChannelStore.OnNameUnwrapped | frontend/src/channel.svelte.ts:326-360 | room-name updates, silent when repeated or initial |
| ChannelStores.ChannelStore.OnNickUnwrapped | frontend/src/channel.svelte.ts:361-387 | nickname updates up to the signature check |
| ChannelStores.ChannelStore.UpdateKey | frontend/src/channel.svelte.ts:405-409 | a local rotation installs the key and clears the cache |
| ChannelStores.ChannelStore.Continue | frontend/src/channel.svelte.ts:193-402 | a resumed handler does what the value model says |
| ChannelStores.ChannelStore.HandleFrame | frontend/src/channel.svelte.ts:193-402 | an uninterrupted handler is its pieces in order |
| ReceiveRuns.PinsWrittenByVerifiedClaims | frontend/src/channel.svelte.ts:226-250 | in every interleaving a pin is written only by a claim that verified, for an unpinned nickname |
| ReceiveRuns.RunKeepsTofu | frontend/src/channel.svelte.ts:221-289 | over every run pins and first fingerprints never change, the timeline only grows, and the trust invariant holds |
| ReceiveRuns.VerifiedNicksAgree | frontend/src/channel.svelte.ts:421-431 | two bubbles verified under one nickname have one fingerprint, and an owner of such a key signed for that nickname in this room |
| ReceiveRuns.ConflictsAnnouncedOnce | frontend/src/channel.svelte.ts:261-280 | every conflict bubble has an announcement of its pair, and no pair is announced twice |
| ReceiveRuns.ConflictKeyInjective | frontend/src/channel.svelte.ts:265 | the warning key determines nickname and fingerprint |
| TimelineRuns.RunBacked | frontend/src/channel.svelte.ts:193-402 | in every interleaving each entry of the timeline shows a frame that arrived, opened under a key that was in place |
| TimelineRuns.InvalidClaimsShowNoText | frontend/src/channel.svelte.ts:231-246 | in every run a bubble marked invalid holds a warning, never text |
| TimelineRuns.SignedTextIsSigned | frontend/src/channel.svelte.ts:221-260 | in every run text shown under an identity was claimed by an arrived frame with this nickname and key, and the signature covers it, the room and the message id |
| TimelineRuns.RawTextIsPlaintext | frontend/src/channel.svelte.ts:247-256 | in every run text shown without an identity is the untagged plaintext of an arrived frame |
| TimelineRuns.ImpostorsFlagged | frontend/src/channel.svelte.ts:421-431 | in every run, of two bubbles of one nickname whose claims verified, the first shown as verified, the second is verified if and only if the keys agree in ten characters, and in conflict otherwise |
| TimelineRuns.RunNotesFirst | frontend/src/channel.svelte.ts:281-288 | in every run what is noted for a connection is the fingerprint of its first identified bubble |
| TimelineRuns.MismatchIsReported | frontend/src/channel.svelte.ts:281-288 | a verified claim over a connection that first showed another fingerprint raises the banner |
| TimelineRuns.RunPaysBubbles | frontend/src/channel.svelte.ts:205-260 | over every run each message gives exactly one bubble, but an unknown structured payload none |
| TimelineRuns.WarningsHaveBanners | frontend/src/channel.svelte.ts:205-260 | each warning bubble comes with its banner |
| TimelineRuns.RunAnnouncesNames | frontend/src/channel.svelte.ts:326-360 | over every run the timeline announces exactly the changes of the room name, and no re-announcement |
| TimelineRuns.RefusalsSayWhy | frontend/src/channel.svelte.ts:193-393 | a frame that is not let in sets the banner to the reason; every other frame leaves it alone |
| TimelineRuns.OutcomesShow | frontend/src/channel.svelte.ts:306-387 | a key, room-name or nickname handler that ends clears the banner or names its failure |
| TimelineRuns.OnlineIsLast | frontend/src/channel.svelte.ts:202-204 | the member count shown is the last one announced |
| ReplayRuns.CopyDroppedIff | frontend/src/channel.svelte.ts:205-376 | for every interleaving and all four kinds of frames: a valid envelope is dropped if and only if a handler of its id has taken it in, with no key installed and fewer than 1000 ids taken in since; otherwise it is let in |
| ReplayRuns.LetInIsShown | frontend/src/channel.svelte.ts:221-260 | a message or room name that was let in is shown whatever the cache holds by then |
| ReplayRuns.RunKeepsSound | frontend/src/channel.svelte.ts:205-376 | in every run each waiting handler holds a valid envelope and the id it names |
| ReplayRuns.NoReplayAfterCompletion | frontend/src/channel.svelte.ts:205-376 | for every interleaving: once a sealed record was taken in, a copy in any kind of frame is dropped until 1000 other ids were taken in, and let in after that |
| ReplayRuns.AtMostOnce | frontend/src/channel.svelte.ts:205-376 | with uninterrupted handlers and fresh keys: after a frame of any kind has left something behind, no copy of its record in any kind of frame leaves content before 1000 insertions |
| ReplayRuns.OldRecordsClosed | frontend/src/channel.svelte.ts:306-313 | clearing the cache on rotation is safe: what opened under one key opens under no other |
| ReplayRuns.OverlappingCopiesBothShown | frontend/src/channel.svelte.ts:214-260 | two copies, signed or raw, that arrive before either handler ends are both shown |
| ReplayRuns.WindowDistinct | frontend/src/e2ee.ts:63-91 | in every run the remembered ids are pairwise distinct |
| EndToEnd.SentIffWithinBudget | frontend/src/channel.svelte.ts:465-509 | a text is sent if and only if it is not blank, within budget and taken by the transport; the wire check never fires |
| EndToEnd.PeerReads | frontend/src/channel.svelte.ts:465-498 | a peer with key and room decrypts, parses and verifies what was sent |
| EndToEnd.TextArrives | frontend/src/channel.svelte.ts:205-260 | the peer renders exactly text and nick, verified or in conflict by its pins, if and only if the nick is valid; otherwise it ignores the message |
| Rotation.MembersStayInStep | frontend/src/channel.svelte.ts:292-376 | through any rotations and other traffic a member opens every frame of the rotator's stream (messages, room names, nicknames, key updates), each takes effect, and it ends on the rotator's key |
| Rotation.KeyUpdateEffect | frontend/src/channel.svelte.ts:306-323 | an update under the receiver's key installs exactly the shared key; one that does not open changes no key |
| Rotation.OtherFrames | frontend/src/channel.svelte.ts:193-402 | frames that share no key leave the key alone and remember at most their own id |
| Rotation.OwnFrame | frontend/src/App.svelte:566-587 | the rotator's next frame is opened by a member in step, which stays in step |
| Rotation.UpdateTakenIff | frontend/src/channel.svelte.ts:306-323 | after an unseen update a member is on the shared key if and only if it was on the key the update was wrapped under, or had the shared key already; on any other key nothing but the banner changes |
| Rotation.MembersFollowChain | frontend/src/channel.svelte.ts:292-325 | with any number of rotators a member ends on the key that its chain of own switches and arriving updates leads to |
| Rotation.ConcurrentRotationsDiverge | frontend/src/App.svelte:566-587 | two members that rotate at once each stay on their own key, and the others follow the update that comes first |
| Limiters.Limiter.Allow | backend/internal/ws/limiter.go:43-63 | one request changes one window and answers as the fixed window says |
| Limiters.Limiter.CleanupConn | backend/internal/ws/limiter.go:67-76 | forgets exactly the keys with the connection's prefix |
| Limiters.Limiter.CleanupExpired | backend/internal/ws/limiter.go:82-91 | forgets exactly the windows past their own duration |
| Limiters.CollectionUnobservable | backend/internal/ws/limiter.go:78-91 | dropping all collections from a run changes no answer to a key used with one duration |
| Limiters.CollectionVisible | backend/internal/ws/limiter.go:43-91 | exactly when a collection changes the next answer |
| Limiters.SlidingBound | backend/internal/ws/limiter.go:43-63 | any closed interval of the window's length holds at most 2L-1 allowed requests (19 for the 10 per second send limit) |
| Limiters.SlidingBoundAttained | backend/internal/ws/limiter.go:43-63 | a run with 2L-1 allowed requests in such an interval, for every L and length |
| Limiters.RefusedOnlyWhenSpent | backend/internal/ws/limiter.go:43-63 | over every run: whenever a request is refused, at least `limit` requests of its key were allowed in the closed interval of its duration that ends with it |
| Limiters.CloseForgetsExactly | backend/internal/ws/limiter.go:67-76 | after a connection closes its keys are answered as if never used, all others as if nothing happened |
| Managers.Manager.Create | backend/internal/channel/manager.go:60-71 | adds an empty channel, active now, unless it exists |
| Managers.Manager.JoinIfRoom | backend/internal/channel/manager.go:92-109 | check, cap and insertion as one step on the relation |
| Managers.Manager.Touch | backend/internal/channel/manager.go:112-118 | makes an existing channel active now |
| Managers.Manager.Leave | backend/internal/channel/manager.go:123-135 | removes one pair; activity stays |
| Managers.Manager.LeaveAll | backend/internal/channel/manager.go:139-155 | removes the connection everywhere and returns exactly the channels that held it, each once |
| Managers.Manager.Count | backend/internal/channel/manager.go:158-165 | the number of connections in the channel |
| Managers.Manager.Snapshot | backend/internal/channel/manager.go:168-180 | exactly the members of an existing channel |
| Managers.Manager.Drop | backend/internal/channel/manager.go:198-209 | prunes the reverse index to match the dropped channel |
| Managers.Manager.Expire | backend/internal/channel/manager.go:185-213 | removes exactly the channels over their TTL, returns each once, keeps the rest and the indexes inverse |
| Managers.ReverseIsChannels | backend/internal/channel/manager.go:103-107 | the reverse index holds exactly the channels of each connection |
| ServerRuns.RunsAreGood | backend/internal/ws/transport.go:61-361 | in every interleaving: at most 100 members, members run and are not closing, online counts within 1 and 100 (a `joined` frame: unless a day passed since the join), announcements and relayed frames go to exactly the members, and error answers tell the truth |
| ServerRuns.StartOk | backend/internal/channel/manager.go:39-49 | a server without channels and connections satisfies the invariant, so every run from it is good |
| ServerRuns.LateCountSaysZero | backend/internal/ws/transport.go:152-164 | a count any time more than a day after the join can be 0 |
| ServerRuns.JoinsFillExactly | backend/internal/channel/manager.go:85-109 | in every interleaving with sweeps, traffic and other handlers within ten minutes of activity, while no member goes: of N connections that try to join exactly min(N, free places) get in |
| ServerRuns.ActiveChannelSurvives | backend/internal/channel/manager.go:185-213 | a channel created, joined or touched survives every sweep of the next ten minutes |
| ServerRuns.ActivityMoves | backend/internal/channel/manager.go:60-155 | the last activity moves in exactly the steps that create, join or touch; leaving and disconnecting do not restart the clock |
| ServerRuns.AbandonedChannelGoes | backend/internal/channel/manager.go:185-213 | a channel not made active for more than ten minutes and empty in the end is gone after the next sweep, whoever left it meanwhile |
| RelayRuns.MembershipMoves | backend/internal/channel/manager.go:92-213 | a connection is in a channel after a step if and only if it enters in it, or was there and does not leave, close or lose the channel to a sweep |
| RelayRuns.MembersEntered | backend/internal/channel/manager.go:92-213 | over every run of an empty server the members are exactly the connections that entered and have not exited since |
| RelayRuns.OnlyMembersRelay | backend/internal/ws/transport.go:183-230 | in every run whoever relays a frame was found to be a member after its last frame was read, and the frame goes to exactly who is a member then |
| RelayRuns.MembersAreRelayed | backend/internal/ws/transport.go:183-230 | a frame that a member sends into an existing channel goes out, whatever interleaves |
| RelayRuns.CountsAreAnnounced | backend/internal/ws/transport.go:364-391 | a count read in a room with members is announced to exactly its members; an empty room is told nothing |
| RelayRuns.ClosingAnnounces | backend/internal/ws/transport.go:66-76 | a closing handler does so for each channel it was in |
| RelayRuns.ChangesLeadToAnnouncements | backend/internal/ws/transport.go:145-182 | a join is answered with the size of the room, and joins, leaves and closings lead to announcements |
| Transports.Transport.ConnectSocket | frontend/src/transport.ts:95-103 | a new socket unless one is connecting or open; the timer is cleared |
| Transports.Transport.ScheduleReconnectTimer | frontend/src/transport.ts:72-84 | one timer, when reconnection is on and wanted |
| Transports.Transport.DisconnectSocket | frontend/src/transport.ts:138-153 | everything is switched off and the queue dropped |
| Transports.Transport.Send | frontend/src/transport.ts:155-174 | an item is written, queued within the cap, dropped beyond it, or refused |
| Transports.Transport.Flush | frontend/src/transport.ts:86-93 | the queue is taken out and resent in order |
| Transports.Transport.SocketOpened | frontend/src/transport.ts:105-110 | the open event of the current socket: status handlers send what they send, then the queue is flushed |
| Transports.Transport.SocketClosed | frontend/src/transport.ts:130-135 | the close event of the current socket schedules a reconnect |
| Transports.RunKeepsLifecycle | frontend/src/transport.ts:65-153 | over every run: one timer at most and only while reconnecting without a socket, capped queue, never stuck |
| Transports.NewTransportSound | frontend/src/transport.ts:31-36 | a new transport satisfies the lifecycle, order and conservation invariants |
| Transports.OffStaysOff | frontend/src/transport.ts:138-174 | after `disconnect` nothing but `connect` makes a socket or takes an item |
| Transports.DisconnectTurnsOff | frontend/src/transport.ts:138-153 | `disconnect` reaches that state |
| Transports.RunConserves | frontend/src/transport.ts:86-174 | every accepted item is in exactly one place, and lost only to the cap, a throwing send or `disconnect` |
| Transports.RunLosses | frontend/src/transport.ts:138-174 | in every run each lost item goes back to one event: a send while 100 items wait, a `disconnect` while it was queued, or a throwing send in a flush |
| Transports.AcceptedSomewhere | frontend/src/transport.ts:155-174 | `sendRaw` takes an item, and answers true, exactly when it writes or queues it while there is room |
| Transports.AcceptedIsDelivered | frontend/src/transport.ts:86-174 | an item taken while the queue has room is written by the next open event of the current socket, unless `disconnect` or a throwing flush comes first |
| Transports.RunKeepsOneLive | frontend/src/transport.ts:95-153 | in every run at most one socket is connecting or open, the current one; after `disconnect` none is |
| Transports.ConnectGoesLive | frontend/src/transport.ts:72-103 | `connect`, called or by a timer, ends with a live socket, a new one unless there was one |
| Transports.EventKeepsStatus | frontend/src/transport.ts:72-153 | the status agrees with socket and timer, and the number of attempts grows and restarts as stated |
| Transports.RunKeepsOrder | frontend/src/transport.ts:86-174 | in every run: written items across all sockets, then the queue, are in the order of acceptance, each once, if and only if at no open event a new item overtook a queued one |
| Transports.OpenEventOrder | frontend/src/transport.ts:105-110 | what an open event leaves written, for any sends and failures; order is kept if and only if no synchronous send was written or no queued item survives the flush |
| Transports.QuietRunsKeepOrder | frontend/src/transport.ts:86-174 | order holds in every run in which status handlers do not send on "open" |
| Invites.LinkRoundTrip | frontend/src/invite.ts:8-15 | a link is read back for any origin in which the pattern does not match first |
| Invites.WebLinkRoundTrip | frontend/src/App.svelte:554 | on web origins a link round-trips if and only if the host is not exactly `r` |
| Invites.MatchesAtPath | frontend/src/invite.ts:8 | the pattern matches exactly where `/r/` is followed by an id character |
| Invites.MatchWithKey | frontend/src/invite.ts:8-15 | a match with a key reads the id and the key up to an ampersand, white space or the end |
| Invites.MatchWithoutKey | frontend/src/invite.ts:8-15 | a match without a key part reads the longest id of at most 64 characters and no key |
| Invites.NoLinkIsId | frontend/src/invite.ts:10-15 | text without a match is the room id, trimmed |
| Invites.KeyParamRoundTrip | frontend/src/invite.ts:23-30 | encoding throws exactly on lone surrogates; every other value is what `decodeKeyParam` returns for its encoding, and a malformed escape comes back as it is |

## Left out

- Web Crypto, key generation, random bytes and the Ed25519 probe: foreign calls; ideal tables and freshness stand for them.
- JSON syntax, the generated protocol validators, and the per-type acceptance rules of `encode` and `decode` beyond room id and payload length. A frame that fails to decode is the input `Undecodable`.
- Timestamps of timeline entries, the callbacks to the app and the colours and names it displays.
- The wording of banners and warnings: each is a constructor (`StoreError`, `Content`).
- The unsigned send path and `noopCrypto`; unsigned texts are covered on the receiving side.
- `sendMessage` is a function of its inputs, so the banner it leaves in `error` is not part of this model.
- The app's rotation dialog beyond the order wrap, send, switch; invite links copied to the clipboard.
- Ping and pong, the HTTP upgrade, read limits, write timeouts and shutdown. A write is a frame that goes out.
- The limiter is not composed with the handler steps: there any request may be refused or not, so what is proved holds for every answer of the limiter.
- Backoff delays and their jitter; only the number of attempts is kept.
- Reentrant calls from status and message handlers of the transport other than sends while "open" is announced.
- Sub in `time.Time` saturates after 292 years; times are unbounded integers here.
- ChannelStores.ChannelStore.constructor: takes the room and its key; the default `noopCrypto`, the set-up of the identity and the wiring of the transport are not modelled.
- ChannelStores.ChannelStore.OnKeyImported: the callback `onKeyRotated` is taken to return; an exception of it would leave the new key in place with the failure banner and no notice.
- ChannelStores.ChannelStore.OnNameUnwrapped: the callback `onRoomNameUpdated` is taken to return.
- ChannelStores.ChannelStore.OnNickUnwrapped: the callback `onNicknameUpdated` is taken to return, and what it does with an unsigned nickname is not modelled.
- ReplayRuns.AtMostOnce: handlers that run to completion, because for overlapping handlers the promise fails; `ReplayRuns.CopyDroppedIff` says exactly when.
- Rotation.MembersStayInStep: one rotating member, frames relayed in order without loss, handlers that run to completion; with several rotators `Rotation.MembersFollowChain` says which key a member ends on.
