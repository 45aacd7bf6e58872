# Chatwoot ↔ WhatsApp bridge — Dafny model

This project models the decision logic of the wuzapi bridge between WhatsApp and Chatwoot,
as written in `chatwoot.go`:

- **Outbound relay** (`sendToChatwoot`, WhatsApp → Chatwoot). Load the tenant's Chatwoot
  configuration and stop silently if it is missing or incomplete. Derive the contact key from
  the JID. Find or create the Chatwoot contact, then find or create its conversation, then post
  the message. The first failure ends the relay.
- **Find-or-create contact**. Take the first search hit. Otherwise issue one create carrying
  the key as `identifier` and as `custom_attributes.source_id`.
- **Find-or-create conversation**. Scan the contact's conversations in the order Chatwoot lists
  them and take the first `open` or `pending` one. Otherwise create a conversation bound to
  the contact and the inbox, with source id `conv_<unix seconds>`.
- **Message post**. `message_type` is `outgoing` or `incoming` by direction, and
  `private` is always false. A status of 400 or more is an error.
- **Inbound webhook** (`ChatwootWebhook`, Chatwoot → WhatsApp). Answer 400 to an undecodable
  body and 200 to everything else. Relay only `message_created` events that are `outgoing` and
  whose sender type does not contain `contact`. Resolve the tenant first by Chatwoot account id,
  then by the URL `token`. Send only when the tenant's WhatsApp client is connected. The
  target address gets `@s.whatsapp.net` appended when it has no `@`.

Structure, one module per file:

- `wrappers.dfy` (`Wrappers`): Option and Result.
- `sequences.dfy` (`Sequences`): first-match search. It is the shape of the conversation scan
  and of SQL `LIMIT 1`.
- `strings.dfy` (`Strings`): `strings.Contains`.
- `numerals.dfy` (`Numerals`): `fmt.Sprintf("%d", n)` and its inverse.
- `jid.dfy` (`Jid`): contact-key derivation and JID suffixing.
- `tenants.dfy` (`Tenants`): the `users` table. Rows are in database order and SQL NULL is
  `None`. It holds the configuration load and the two webhook lookups.
- `chatwoot_api.dfy` (`Chatwoot`): Chatwoot's state and its five endpoints. They appear as pure step
  functions on a `ChatwootState` value and as methods of the `ChatwootService` class, whose fields the
  endpoints update. Each request the bridge issues is appended to `log`.
- `outbound.dfy` (`Outbound`): the relay. Each operation has a specification function from
  the Chatwoot state before to the result and the state after. It also has the imperative method
  that calls a `ChatwootService` step by step, proved equal to that function.
- `outbound_properties.dfy` (`OutboundProperties`): lemmas about the relay.
- `inbound.dfy` (`Inbound`): the webhook handler and lemmas about tenant resolution.

Modelling choices:

- HTTP is replaced by the Chatwoot endpoints. Each endpoint can be `down` (transport error) or
  `rejecting` (401 with a body that does not decode). Chatwoot answers 404 to a conversation
  create for an unknown contact and to a message post for an unknown conversation.
- Chatwoot's contact search is modelled as an exact match on `identifier`, in creation order.
  A contact's conversations are listed in creation order, and posting a message does not
  reorder them. A new conversation gets status `open`. These are assumptions about Chatwoot,
  not about the bridge.
- The SQL queries are first-match lookups over the rows. The WhatsApp session registry is a
  map from tenant id to "connected". The send is returned as a `Delivery` value. The Unix time
  is a parameter.
- The model takes each line of `chatwoot.go` for what it means, although the file as it stands
  does not compile. It uses `time` (line 163) and `context` (line 269) without importing them,
  and it declares the local `inboxID` (line 231) and never uses it, which Go rejects.
- The configuration load at chatwoot.go:47 is modelled as reading the four `chatwoot_*`
  columns into the four fields of `ChatwootConfig`. That struct (chatwoot.go:14-19) has only
  `json` tags, so this relies on a sqlx column mapper configured outside this file. With
  sqlx's default mapper (the `db` tag, else the lower-cased field name) the load fails for
  every tenant, and the relay then never calls Chatwoot.

Behaviour of the code worth knowing, each stated by a lemma:

- The contact key is the text before the first `@`. A device part (`user:3@server`) stays in
  the key (`Jid.DeviceSuffixStaysInKey`).
- The search, contact-create, listing and conversation-create calls ignore the HTTP status.
  An undecodable body reads as Go's zero value. So a rejected contact create "succeeds" with
  contact 0 (`OutboundProperties.RejectedCreateYieldsContactZero`). A rejected listing reads
  as no conversations, so a new conversation is opened even when the contact already has an
  open one (`OutboundProperties.RejectedListingOpensConversation`). Only the message post
  checks the status.
- The account-tier query requires the Chatwoot token to be NOT NULL, not non-empty
  (`Inbound.EmptyChatwootTokenQualifies`).
- An empty URL token ends resolution without querying (`Inbound.EmptyTokenResolvesNobody`).
- An undecodable webhook body gets 400; every other body gets 200 (`Inbound.HandleWebhook`).
- Conversation source ids are unique per second, not per create attempt
  (`OutboundProperties.SourceIdUniquePerSecond`).

## Model

| member | source | states |
|---|---|---|
| `Jid.ContactKey` | chatwoot.go:58 | the key has no `@`, is a prefix of the JID, and is followed in the JID by `@` or by nothing |
| `Jid.KeyIsUserPart` | chatwoot.go:58 | the key equals `u` exactly when `u` is the `@`-free text before the first `@` (or the whole JID) |
| `Jid.KeyOfUserAt` | chatwoot.go:58 | the key of `user@server` is `user` for every server |
| `Jid.SameUserSameKey` | chatwoot.go:58 | JIDs with the same user part, and the bare user, give the same key |
| `Jid.DeviceSuffixStaysInKey` | chatwoot.go:58 | `user:device@server` keeps `user:device` as key, which differs from the key of `user@server` |
| `Jid.NormalizeJid` | chatwoot.go:263-266 | the target always contains `@`; it is unchanged when the source id has `@`, else the source id plus `@s.whatsapp.net` |
| `Jid.NormalizeIdempotent` | chatwoot.go:263-266 | normalizing twice equals normalizing once |
| `Jid.KeyNormalizeRoundTrip` | chatwoot.go:263-266 | for an `@`-free key, the normalized address is `key@s.whatsapp.net` and its contact key is the key again |
| `Strings.HasSubstringIff` | chatwoot.go:226 | `strings.Contains` holds exactly when some window of the string equals the needle |
| `Strings.HasCharIff` | chatwoot.go:264 | containing the one-character string `@` is membership of `@` |
| `Strings.HasSubstring` | chatwoot.go:226 | no contract of its own (a specification function); `strings.Contains`, also used at line 264; characterized by `Strings.HasSubstringIff` and `Strings.HasCharIff` |
| `Sequences.FirstIndex` | chatwoot.go:154-158 | the result indexes a matching element with no match before it, and is absent exactly when nothing matches |
| `Sequences.FirstIndexAt` | chatwoot.go:154-158 | an index that matches with no match before it is the first index |
| `Numerals.DecimalRoundTrip` | chatwoot.go:236 | parsing the `%d` text of `n` gives `n` back |
| `Numerals.DecimalInjective` | chatwoot.go:236 | two integers have the same `%d` text exactly when they are equal |
| `Numerals.NatDigits` | chatwoot.go:236 | the digits of a natural number are non-empty, all decimal digits, and have no leading zero |
| `Numerals.Decimal` | chatwoot.go:236 | no contract of its own (a specification function); the `%d` text; described by `Numerals.NatDigits`, `Numerals.DecimalRoundTrip` and `Numerals.DecimalInjective` |
| `Tenants.LoadConfig` | chatwoot.go:46-51 | a loaded config is the four Chatwoot columns of the first row with that id; the load fails exactly when no row has the id or the first such row has a NULL column |
| `Tenants.ByAccount` | chatwoot.go:235-236 | the result is the id of the first row with that account and a non-NULL Chatwoot token; absent exactly when no row qualifies |
| `Tenants.ByToken` | chatwoot.go:247 | the result is the id of the first row with that API token; absent exactly when no row has it |
| `Tenants.Complete` | chatwoot.go:53 | no contract of its own (a specification function); all four configuration fields are non-empty; its role in the relay is stated by `OutboundProperties.RelayCallsChatwootIffEnabled` |
| `Chatwoot.SearchIdsSound` | chatwoot.go:80-100 | an id is among the search hits exactly when a contact with that id carries the searched identifier |
| `Chatwoot.ListingSound` | chatwoot.go:136-152 | every listed entry is a conversation of that contact, with the same id and status |
| `Chatwoot.CreateContactPreservesValid` | chatwoot.go:103-131 | creating a contact keeps ids positive, below the next id, and pairwise distinct among contacts |
| `Chatwoot.CreateConversationPreservesValid` | chatwoot.go:161-182 | opening a conversation keeps ids positive, below the next id, and pairwise distinct among conversations |
| `Chatwoot.SearchStep` | chatwoot.go:85 | no contract of its own (a specification function); the contact search call; described by `Chatwoot.SearchIdsSound` and the contact lemmas, and implemented by `Chatwoot.ChatwootService.SearchContacts` |
| `Chatwoot.CreateContactStep` | chatwoot.go:117 | no contract of its own (a specification function); the contact create call; described by `Chatwoot.CreateContactPreservesValid` and `OutboundProperties.ContactMissCreatesOnce`, and implemented by `Chatwoot.ChatwootService.CreateContact` |
| `Chatwoot.ListStep` | chatwoot.go:140 | no contract of its own (a specification function); the conversation listing call; described by `Chatwoot.ListingSound`, and implemented by `Chatwoot.ChatwootService.ListConversations` |
| `Chatwoot.CreateConversationStep` | chatwoot.go:172 | no contract of its own (a specification function); the conversation create call; described by `Chatwoot.CreateConversationPreservesValid` and `OutboundProperties.ConversationOpenedWhenNoneActive`, and implemented by `Chatwoot.ChatwootService.CreateConversation` |
| `Chatwoot.CreateMessageStep` | chatwoot.go:203 | no contract of its own (a specification function); the message post call; described by `OutboundProperties.MessagePost`, and implemented by `Chatwoot.ChatwootService.CreateMessage` |
| `Chatwoot.ChatwootService.SearchContacts` | chatwoot.go:80-96 | the search request is logged; the reply is a transport error, a 401 without body, or 200 with the ids of matching contacts |
| `Chatwoot.ChatwootService.CreateContact` | chatwoot.go:103-130 | the create request is logged; an accepted create appends the contact under a fresh id and returns it |
| `Chatwoot.ChatwootService.ListConversations` | chatwoot.go:136-152 | the listing request is logged; an accepted one returns the contact's conversations in order |
| `Chatwoot.ChatwootService.CreateConversation` | chatwoot.go:161-181 | the create request is logged; an accepted create for a known contact appends an open conversation under a fresh id |
| `Chatwoot.ChatwootService.CreateMessage` | chatwoot.go:186-207 | the post is logged; an accepted post to a known conversation appends the message |
| `Outbound.MessageType` | chatwoot.go:188-191 | the type is `outgoing` exactly when the message is outgoing, and `incoming` exactly when it is not |
| `Outbound.PostOutcome` | chatwoot.go:203-214 | a post succeeds exactly when it got a status below 400; a status of 400 or more is returned as the error |
| `Outbound.IsActive` | chatwoot.go:155 | no contract of its own (a specification function); a reusable conversation is `open` or `pending`; its use is stated by `OutboundProperties.ConversationReused` and `OutboundProperties.InactiveNeverReturned` |
| `Outbound.ConversationSourceId` | chatwoot.go:163 | no contract of its own (a specification function); `conv_` followed by the `%d` text of the second; described by `OutboundProperties.SourceIdUniquePerSecond` |
| `Outbound.ContactRun` | chatwoot.go:79-132 | no contract of its own (a specification function); described by `OutboundProperties.ContactFoundCreatesNothing`, `ContactMissCreatesOnce`, `RejectedCreateYieldsContactZero`, `ContactRunHealthy`, `ContactPhases` and `ContactRunPreservesValid`; `Outbound.FindOrCreateContact` is proved equal to it |
| `Outbound.ConversationRun` | chatwoot.go:134-183 | no contract of its own (a specification function); described by `OutboundProperties.ConversationReused`, `ConversationOpenedWhenNoneActive`, `RejectedListingOpensConversation`, `InactiveNeverReturned`, `ConversationRunHealthy`, `ConversationPhases` and `ConversationRunPreservesValid`; `Outbound.FindOrCreateConversation` is proved equal to it |
| `Outbound.MessageRun` | chatwoot.go:185-215 | no contract of its own (a specification function); described by `OutboundProperties.MessagePost`; `Outbound.SendMessage` is proved equal to it |
| `Outbound.Relay` | chatwoot.go:44-77 | no contract of its own (a specification function); described by `OutboundProperties.RelayCallsChatwootIffEnabled`, `RelayStopsAtFirstFailure`, `RelayPreservesValid` and `RelayTwiceReusesThread`; `Outbound.SendToChatwoot` is proved equal to it |
| `Outbound.FindOrCreateContact` | chatwoot.go:79-132 | the result and the new Chatwoot state are those of the find-or-create-contact specification |
| `Outbound.FindOrCreateConversation` | chatwoot.go:134-183 | the scan loop returns the first open or pending entry, else creates a conversation, as in its specification |
| `Outbound.SendMessage` | chatwoot.go:185-215 | the post and its error are those of the message specification |
| `Outbound.SendToChatwoot` | chatwoot.go:44-77 | the new Chatwoot state is that of the relay specification |
| `OutboundProperties.ContactFoundCreatesNothing` | chatwoot.go:98-100 | a non-empty search yields its first id; the only request is the search and no contact is created |
| `OutboundProperties.ContactMissCreatesOnce` | chatwoot.go:102-131 | an empty or undecodable search issues exactly one create with identifier and source_id equal to the key, the inbox and the name; an accepted one returns the new contact's id |
| `OutboundProperties.RejectedCreateYieldsContactZero` | chatwoot.go:117-131 | a rejected contact create is reported as success with contact 0 and creates nothing |
| `OutboundProperties.ContactRunHealthy` | chatwoot.go:79-132 | on a healthy Chatwoot the contact step succeeds with an existing contact that a later search returns first |
| `OutboundProperties.ContactPhases` | chatwoot.go:79-132 | the contact step adds only contact requests to the log, starting with the search, and changes no conversation or message |
| `OutboundProperties.ContactRunPreservesValid` | chatwoot.go:79-132 | the contact step keeps Chatwoot's ids valid |
| `OutboundProperties.ConversationReused` | chatwoot.go:154-158 | when the listing has an open or pending entry, the first one is returned and nothing is created |
| `OutboundProperties.ConversationOpenedWhenNoneActive` | chatwoot.go:160-182 | with no open or pending entry, exactly one conversation create is issued for this contact and inbox; an accepted one returns the new open conversation |
| `OutboundProperties.RejectedListingOpensConversation` | chatwoot.go:136-182 | a 401 listing reads as no conversations: a conversation create follows the listing, and an accepted one returns an id that no existing conversation has, even when an open one exists |
| `OutboundProperties.SourceIdUniquePerSecond` | chatwoot.go:163 | two conversation source ids are equal exactly when their seconds are equal |
| `OutboundProperties.InactiveNeverReturned` | chatwoot.go:154-182 | on a valid Chatwoot, no existing conversation whose status is neither open nor pending is ever returned |
| `OutboundProperties.ConversationRunHealthy` | chatwoot.go:134-183 | on a healthy Chatwoot, for an existing contact, the conversation step returns an existing conversation that is the first active entry of the later listing |
| `OutboundProperties.ConversationPhases` | chatwoot.go:134-183 | the conversation step adds only conversation requests to the log and changes no contact or message |
| `OutboundProperties.ConversationRunPreservesValid` | chatwoot.go:134-183 | the conversation step keeps Chatwoot's ids valid |
| `OutboundProperties.MessagePost` | chatwoot.go:185-215 | the post carries text, direction and private=false; it fails exactly on a transport error or status 400 or more; only a success stores the message |
| `OutboundProperties.RelayCallsChatwootIffEnabled` | chatwoot.go:44-59 | the relay issues a Chatwoot request exactly when the config loads and is complete; otherwise Chatwoot is unchanged |
| `OutboundProperties.RelayStopsAtFirstFailure` | chatwoot.go:57-76 | requests go contact, then conversation, then message; a contact failure adds no later-stage request and changes no conversation or message; a conversation failure stores no message |
| `OutboundProperties.RelayPreservesValid` | chatwoot.go:44-77 | a relay keeps Chatwoot ids positive, below the next id, and pairwise distinct among contacts and among conversations |
| `OutboundProperties.RelayTwiceReusesThread` | chatwoot.go:44-183 | on a healthy Chatwoot, a relay is delivered and a second relay from the same JID reaches the same contact and conversation without creating either |
| `Inbound.HandleWebhook` | chatwoot.go:217-282 | 400 exactly for an undecodable body, otherwise 200; a send happens exactly when the gate passes, a tenant resolves and its client is connected; it goes to that tenant, at the normalized address, with the content |
| `Inbound.Relayable` | chatwoot.go:226 | no contract of its own (a specification function); the gate: a created, outgoing message whose sender type does not contain `contact`; used by `Inbound.HandleWebhook`'s contract and described by `Inbound.ContactSendersDropped` |
| `Inbound.ResolveTenant` | chatwoot.go:235-253 | no contract of its own (a specification function); described by `Inbound.AccountTierFirst`, `Inbound.TokenTierFallback`, `Inbound.EmptyTokenResolvesNobody` and `Inbound.ResolvedTenantIsARow` |
| `Inbound.AccountTierFirst` | chatwoot.go:235-253 | when a row is configured for the account, the URL token does not affect the resolved tenant |
| `Inbound.EmptyTokenResolvesNobody` | chatwoot.go:240-246 | with no account match, an empty URL token resolves no tenant |
| `Inbound.TokenTierFallback` | chatwoot.go:240-253 | with no account match and a non-empty URL token, the tenant is the first row carrying that token |
| `Inbound.ResolvedTenantIsARow` | chatwoot.go:235-253 | a resolved tenant is a row configured for the account or carrying the non-empty URL token |
| `Inbound.AccountRowMatchesOneId` | chatwoot.go:235-236 | a row answers to at most one webhook account id |
| `Inbound.ClearedAccountMatchesNothing` | chatwoot.go:235-236 | a row with an empty account column matches no webhook account |
| `Inbound.EmptyChatwootTokenQualifies` | chatwoot.go:235-236 | a row whose Chatwoot token is empty but not NULL still qualifies for its account |
| `Inbound.ContactSendersDropped` | chatwoot.go:226 | a sender type containing `contact` anywhere fails the gate |

## Left out

- HTTP request building, headers, URL formatting and JSON encoding. The account id and
  access token travel only in these, so the Chatwoot requests do not record them.
- Error bodies read for the log line (chatwoot.go:210-211). The model keeps only the status.
- Logging. The relay's end state is given as an `Outcome` value instead.
- The config handlers `ConfigureChatwoot`, `GetChatwootConfig` and `DeleteChatwootConfig`.
  They are database plumbing with no decisions.
- `internalSendMessage` and the whatsmeow client. The model records the delivery handed to
  the sender. A failure of that send is only logged and does not change the 200 answer.
- Concurrency. Two relays for a new contact can both miss the search and both create. Every
  lemma here is about sequential runs.
- The unused `inboxID` local of the webhook handler (chatwoot.go:231). Go refuses to compile a
  declared and unused local, so the handler is modelled as if the line were absent.
- `Tenants.LoadConfig` assumes that chatwoot.go:47 maps the `chatwoot_*` columns onto
  `ChatwootConfig`'s fields. That depends on a sqlx mapper configured elsewhere, which is not
  part of this model. Under sqlx's default `db`-tag mapper the load fails for every tenant, so
  the relay would always stop at line 50; the relay lemmas describe the mapped case.
- Go's 64-bit `int`. Ids and times are unbounded integers. `%d` formatting agrees for every
  value Go can hold.
- Chatwoot's real search ranking and fuzzy matching. The model uses an exact identifier match.
- A `users.token` column that is NULL. The model treats the API token as always set.
