/** Properties of the WhatsApp-to-Chatwoot relay, stated on its specification functions. */
module OutboundProperties {
  import opened Wrappers
  import opened Sequences
  import opened Chatwoot
  import opened Tenants
  import opened Outbound
  import Jid

  /** The pipeline stage a request belongs to: contact, conversation, message. */
  function Phase(r: Request): nat {
    match r
    case GetContactSearch(_) => 0
    case PostContact(_, _, _, _) => 0
    case GetConversations(_) => 1
    case PostConversation(_, _, _) => 1
    case PostMessage(_, _, _, _) => 2
  }

  /** `after` is `before` followed by requests of stage `phase` only. */
  ghost predicate AppendedIn(before: seq<Request>, after: seq<Request>, phase: nat) {
    && |before| <= |after| && after[..|before|] == before
    && forall i :: |before| <= i < |after| ==> Phase(after[i]) == phase
  }

  // ---------------------------------------------------------------------------------------
  // Find-or-create contact

  /** A non-empty search result is taken as is: its first id, and no contact is created. */
  lemma ContactFoundCreatesNothing(s: ChatwootState, cfg: Config, key: string, name: string)
    requires ContactSearch !in s.down && ContactSearch !in s.rejecting
    requires SearchIds(s.contacts, key) != []
    ensures ContactRun(s, cfg, key, name).result == Success(SearchIds(s.contacts, key)[0])
    ensures ContactRun(s, cfg, key, name).service == Issue(s, GetContactSearch(key))
  {
  }

  /** An empty (or undecodable) search result leads to exactly one create request, carrying
      the key as both identifier and `source_id`, the tenant's inbox and the display name. */
  lemma ContactMissCreatesOnce(s: ChatwootState, cfg: Config, key: string, name: string)
    requires ContactSearch !in s.down
    requires ContactSearch in s.rejecting || SearchIds(s.contacts, key) == []
    ensures var r := ContactRun(s, cfg, key, name);
      r.service.log == s.log + [GetContactSearch(key), PostContact(cfg.inboxId, name, key, key)]
    ensures ContactCreate !in s.down && ContactCreate !in s.rejecting ==>
      var r := ContactRun(s, cfg, key, name);
      && r.result == Success(s.nextId)
      && r.service.contacts == s.contacts + [Contact(s.nextId, key, name, cfg.inboxId, key)]
  {
  }

  /** A create that Chatwoot rejects still reads as success, with contact id 0. */
  lemma RejectedCreateYieldsContactZero(s: ChatwootState, cfg: Config, key: string, name: string)
    requires ContactSearch !in s.down && ContactSearch !in s.rejecting && SearchIds(s.contacts, key) == []
    requires ContactCreate !in s.down && ContactCreate in s.rejecting
    ensures ContactRun(s, cfg, key, name).result == Success(0)
    ensures ContactRun(s, cfg, key, name).service.contacts == s.contacts
  {
  }

  /** On a healthy Chatwoot the contact step succeeds with a contact that a later search for the
      key returns first. */
  lemma {:induction false} ContactRunHealthy(s: ChatwootState, cfg: Config, key: string, name: string)
    requires Healthy(s)
    ensures var r := ContactRun(s, cfg, key, name);
      && r.result.Success?
      && HasContact(r.service.contacts, r.result.value)
      && SearchIds(r.service.contacts, key) != [] && SearchIds(r.service.contacts, key)[0] == r.result.value
      && r.service.conversations == s.conversations && r.service.messages == s.messages
      && Healthy(r.service)
  {
    var r := ContactRun(s, cfg, key, name);
    var ids := SearchIds(s.contacts, key);
    if ids != [] {
      SearchIdsSound(s.contacts, key, ids[0]);
    } else {
      var c := Contact(s.nextId, key, name, cfg.inboxId, key);
      assert r.service.contacts == s.contacts + [c];
      assert r.service.contacts[..|s.contacts|] == s.contacts;
      assert r.service.contacts[|s.contacts|] == c;
    }
  }

  // ---------------------------------------------------------------------------------------
  // Find-or-create conversation

  /** When the listing has an open or pending conversation, the first one is returned and
      nothing is created. */
  lemma ConversationReused(s: ChatwootState, cfg: Config, contactId: int, now: int)
    requires ConversationList !in s.down && ConversationList !in s.rejecting
    requires FirstIndex(Listing(s.conversations, contactId), ActiveEntry).Some?
    ensures var k := FirstIndex(Listing(s.conversations, contactId), ActiveEntry).value;
      ConversationRun(s, cfg, contactId, now).result == Success(Listing(s.conversations, contactId)[k].id)
    ensures ConversationRun(s, cfg, contactId, now).service == Issue(s, GetConversations(contactId))
  {
  }

  /** When no listed conversation is open or pending, exactly one conversation is requested,
      bound to the contact and the tenant's inbox, with a time-derived source id. */
  lemma ConversationOpenedWhenNoneActive(s: ChatwootState, cfg: Config, contactId: int, now: int)
    requires ConversationList !in s.down && ConversationList !in s.rejecting
    requires forall e :: e in Listing(s.conversations, contactId) ==> !IsActive(e.status)
    ensures var r := ConversationRun(s, cfg, contactId, now);
      r.service.log == s.log + [GetConversations(contactId),
                             PostConversation(ConversationSourceId(now), contactId, cfg.inboxId)]
    ensures ConversationCreate !in s.down && ConversationCreate !in s.rejecting && HasContact(s.contacts, contactId) ==>
      var r := ConversationRun(s, cfg, contactId, now);
      && r.result == Success(s.nextId)
      && r.service.conversations == s.conversations +
           [Conversation(s.nextId, contactId, cfg.inboxId, ConversationSourceId(now), OpenStatus)]
  {
    var entries := Listing(s.conversations, contactId);
    assert forall j :: 0 <= j < |entries| ==> entries[j] in entries;
  }

  /** A listing that Chatwoot rejects reads as an empty list, whatever the contact already has:
      a new conversation is requested, and when Chatwoot accepts it the result is a conversation
      different from every existing one, including an open one the rejected listing hid. */
  lemma RejectedListingOpensConversation(s: ChatwootState, cfg: Config, contactId: int, now: int)
    requires ConversationList !in s.down && ConversationList in s.rejecting
    ensures var r := ConversationRun(s, cfg, contactId, now);
      r.service.log == s.log + [GetConversations(contactId),
                             PostConversation(ConversationSourceId(now), contactId, cfg.inboxId)]
    ensures Valid(s) && ConversationCreate !in s.down && ConversationCreate !in s.rejecting
            && HasContact(s.contacts, contactId) ==>
      var r := ConversationRun(s, cfg, contactId, now);
      && r.result == Success(s.nextId)
      && (forall i :: 0 <= i < |s.conversations| ==> s.conversations[i].id != r.result.value)
      && r.service.conversations == s.conversations +
           [Conversation(s.nextId, contactId, cfg.inboxId, ConversationSourceId(now), OpenStatus)]
  {
  }

  /** Conversations opened at different seconds get different source ids, and only those. */
  lemma SourceIdUniquePerSecond(now1: int, now2: int)
    ensures ConversationSourceId(now1) == ConversationSourceId(now2) <==> now1 == now2
  {
    if ConversationSourceId(now1) == ConversationSourceId(now2) {
      var a, b := ConversationSourceId(now1), ConversationSourceId(now2);
      assert a[5..] == b[5..];
      Numerals.DecimalInjective(now1, now2);
    }
  }

  /** A conversation that exists and is neither open nor pending is never returned. */
  lemma {:induction false} InactiveNeverReturned(s: ChatwootState, cfg: Config, contactId: int, now: int)
    requires Valid(s)
    ensures var r := ConversationRun(s, cfg, contactId, now);
      r.result.Success? ==>
        forall i :: 0 <= i < |s.conversations| && s.conversations[i].id == r.result.value ==>
          IsActive(s.conversations[i].status)
  {
    var r := ConversationRun(s, cfg, contactId, now);
    var listed := ListStep(s, contactId);
    if r.result.Success? && listed.reply.Http? {
      var entries := listed.reply.body.GetOr([]);
      match FirstIndex(entries, ActiveEntry)
      case Some(k) =>
        ListingSound(s.conversations, contactId, k);
        var j :| 0 <= j < |s.conversations| && s.conversations[j].contactId == contactId
                   && s.conversations[j].id == entries[k].id
                   && s.conversations[j].status == entries[k].status;
        forall i | 0 <= i < |s.conversations| && s.conversations[i].id == r.result.value
          ensures IsActive(s.conversations[i].status)
        {
          assert i == j;
        }
      case None =>
    }
  }

  /** On a healthy Chatwoot, for an existing contact, the conversation step succeeds with a
      conversation that exists and that a later listing returns as its first active entry. */
  lemma {:induction false} ConversationRunHealthy(s: ChatwootState, cfg: Config, contactId: int, now: int)
    requires Healthy(s) && HasContact(s.contacts, contactId)
    ensures var r := ConversationRun(s, cfg, contactId, now);
      && r.result.Success?
      && HasConversation(r.service.conversations, r.result.value)
      && FirstIndex(Listing(r.service.conversations, contactId), ActiveEntry).Some?
      && Listing(r.service.conversations, contactId)[FirstIndex(Listing(r.service.conversations, contactId), ActiveEntry).value].id
           == r.result.value
      && r.service.contacts == s.contacts && r.service.messages == s.messages
      && Healthy(r.service)
  {
    var r := ConversationRun(s, cfg, contactId, now);
    var entries := Listing(s.conversations, contactId);
    match FirstIndex(entries, ActiveEntry)
    case Some(k) =>
      ListingSound(s.conversations, contactId, k);
    case None =>
      var c := Conversation(s.nextId, contactId, cfg.inboxId, ConversationSourceId(now), OpenStatus);
      var convs := s.conversations + [c];
      assert r.service.conversations == convs;
      assert convs[..|s.conversations|] == s.conversations;
      assert convs[|s.conversations|] == c;
      var entries' := Listing(convs, contactId);
      assert entries' == entries + [ConversationEntry(s.nextId, OpenStatus)];
      assert entries'[|entries|] == ConversationEntry(s.nextId, OpenStatus);
      forall j | 0 <= j < |entries| ensures !ActiveEntry(entries'[j]) {
        assert entries'[j] == entries[j];
      }
      FirstIndexAt(entries', ActiveEntry, |entries|);
  }

  // ---------------------------------------------------------------------------------------
  // Message post

  /** The post carries the text, `outgoing` or `incoming` by direction, and `private = false`;
      it fails exactly on a transport error or a status of 400 or more. */
  lemma MessagePost(s: ChatwootState, conversationId: int, text: string, isOutgoing: bool)
    ensures var r := MessageRun(s, conversationId, text, isOutgoing);
      && r.service.log == s.log + [PostMessage(conversationId, text, MessageType(isOutgoing), false)]
      && (r.result.Success? <==> CreateMessageStep(s, conversationId, text, MessageType(isOutgoing), false).reply.Http?
                                 && CreateMessageStep(s, conversationId, text, MessageType(isOutgoing), false).reply.status < 400)
      && (r.result.Success? <==>
            MessageCreate !in s.down && MessageCreate !in s.rejecting && HasConversation(s.conversations, conversationId))
      && r.service.messages == s.messages +
           (if r.result.Success? then [Message(conversationId, text, MessageType(isOutgoing), false)] else [])
      && r.service.contacts == s.contacts && r.service.conversations == s.conversations
  {
  }

  // ---------------------------------------------------------------------------------------
  // The whole relay

  /** The relay calls Chatwoot at all only when the tenant's configuration loads and is complete;
      otherwise Chatwoot is left exactly as it was. */
  lemma RelayCallsChatwootIffEnabled(s: ChatwootState, users: seq<UserRow>, userId: string, jid: string,
                                 name: string, text: string, isOutgoing: bool, now: int)
    ensures var r := Relay(s, users, userId, jid, name, text, isOutgoing, now);
      r.service.log != s.log <==> LoadConfig(users, userId).Some? && Complete(LoadConfig(users, userId).value)
    ensures var r := Relay(s, users, userId, jid, name, text, isOutgoing, now);
      r.outcome.NoConfig? || r.outcome.Disabled? ==> r.service == s
  {
    var r := Relay(s, users, userId, jid, name, text, isOutgoing, now);
    if LoadConfig(users, userId).Some? && Complete(LoadConfig(users, userId).value) {
      var cfg := LoadConfig(users, userId).value;
      var key := Jid.ContactKey(jid);
      ContactPhases(s, cfg, key, name);
      var c := ContactRun(s, cfg, key, name);
      assert c.service.log[|s.log|] == GetContactSearch(key);
      if c.result.Success? {
        ConversationPhases(c.service, cfg, c.result.value, now);
        var v := ConversationRun(c.service, cfg, c.result.value, now);
        if v.result.Success? {
          MessagePost(v.service, v.result.value, text, isOutgoing);
        }
        assert r.service.log[..|c.service.log|] == c.service.log;
      }
      assert r.service.log[|s.log|] == GetContactSearch(key);
    }
  }

  /** The contact step issues contact requests only, starting with the search. */
  lemma ContactPhases(s: ChatwootState, cfg: Config, key: string, name: string)
    ensures var r := ContactRun(s, cfg, key, name);
      && AppendedIn(s.log, r.service.log, 0) && |r.service.log| > |s.log| && r.service.log[|s.log|] == GetContactSearch(key)
      && r.service.conversations == s.conversations && r.service.messages == s.messages
  {
  }

  /** The conversation step issues conversation requests only. */
  lemma ConversationPhases(s: ChatwootState, cfg: Config, contactId: int, now: int)
    ensures var r := ConversationRun(s, cfg, contactId, now);
      && AppendedIn(s.log, r.service.log, 1)
      && r.service.contacts == s.contacts && r.service.messages == s.messages
  {
  }

  lemma AppendedInTrans(a: seq<Request>, b: seq<Request>, c: seq<Request>, p: nat, q: nat)
    requires AppendedIn(a, b, p) && AppendedIn(b, c, q) && p <= q
    ensures |a| <= |c| && c[..|a|] == a
    ensures forall i :: |a| <= i < |c| ==> p <= Phase(c[i]) <= q
    ensures forall i, j :: |a| <= i < j < |c| && Phase(c[j]) < q ==> Phase(c[i]) == Phase(c[j]) == p
  {
    assert c[..|a|] == c[..|b|][..|a|];
    forall i | |a| <= i < |b| ensures c[i] == b[i] {
      assert c[..|b|][i] == b[i];
    }
  }

  /** The relay runs its stages in order and stops at the first failure: the requests it adds
      to the log go contact, then conversation, then message; a contact failure adds no
      conversation or message request and changes no conversation or message; a
      conversation failure adds no message request and stores no message. */
  lemma {:induction false} RelayStopsAtFirstFailure(s: ChatwootState, users: seq<UserRow>, userId: string, jid: string,
                                                    name: string, text: string, isOutgoing: bool, now: int)
    ensures var r := Relay(s, users, userId, jid, name, text, isOutgoing, now);
      && |s.log| <= |r.service.log| && r.service.log[..|s.log|] == s.log
      && (forall i, j :: |s.log| <= i < j < |r.service.log| ==> Phase(r.service.log[i]) <= Phase(r.service.log[j]))
    ensures var r := Relay(s, users, userId, jid, name, text, isOutgoing, now);
      r.outcome.ContactFailed? ==>
        && (forall i :: |s.log| <= i < |r.service.log| ==> Phase(r.service.log[i]) == 0)
        && r.service.conversations == s.conversations && r.service.messages == s.messages
    ensures var r := Relay(s, users, userId, jid, name, text, isOutgoing, now);
      r.outcome.ConversationFailed? ==>
        && (forall i :: |s.log| <= i < |r.service.log| ==> Phase(r.service.log[i]) <= 1)
        && r.service.messages == s.messages
  {
    var r := Relay(s, users, userId, jid, name, text, isOutgoing, now);
    if LoadConfig(users, userId).Some? && Complete(LoadConfig(users, userId).value) {
      var cfg := LoadConfig(users, userId).value;
      var key := Jid.ContactKey(jid);
      ContactPhases(s, cfg, key, name);
      var c := ContactRun(s, cfg, key, name);
      if c.result.Success? {
        ConversationPhases(c.service, cfg, c.result.value, now);
        var v := ConversationRun(c.service, cfg, c.result.value, now);
        AppendedInTrans(s.log, c.service.log, v.service.log, 0, 1);
        if v.result.Success? {
          MessagePost(v.service, v.result.value, text, isOutgoing);
          var m := MessageRun(v.service, v.result.value, text, isOutgoing);
          assert AppendedIn(v.service.log, m.service.log, 2);
          assert m.service.log[..|v.service.log|] == v.service.log;
          assert m.service.log[..|s.log|] == v.service.log[..|s.log|];
          forall i | |s.log| <= i < |v.service.log| ensures m.service.log[i] == v.service.log[i] {
            assert m.service.log[..|v.service.log|][i] == v.service.log[i];
          }
        }
      }
    }
  }

  lemma ContactRunPreservesValid(s: ChatwootState, cfg: Config, key: string, name: string)
    requires Valid(s)
    ensures Valid(ContactRun(s, cfg, key, name).service)
  {
    CreateContactPreservesValid(SearchStep(s, key).after, cfg.inboxId, name, key, key);
  }

  lemma ConversationRunPreservesValid(s: ChatwootState, cfg: Config, contactId: int, now: int)
    requires Valid(s)
    ensures Valid(ConversationRun(s, cfg, contactId, now).service)
  {
    CreateConversationPreservesValid(ListStep(s, contactId).after, ConversationSourceId(now), contactId, cfg.inboxId);
  }

  /** Each relay keeps Chatwoot's ids positive, fresh, and distinct among contacts and among
      conversations. */
  lemma RelayPreservesValid(s: ChatwootState, users: seq<UserRow>, userId: string, jid: string,
                            name: string, text: string, isOutgoing: bool, now: int)
    requires Valid(s)
    ensures Valid(Relay(s, users, userId, jid, name, text, isOutgoing, now).service)
  {
    if LoadConfig(users, userId).Some? && Complete(LoadConfig(users, userId).value) {
      var cfg := LoadConfig(users, userId).value;
      var key := Jid.ContactKey(jid);
      ContactRunPreservesValid(s, cfg, key, name);
      var c := ContactRun(s, cfg, key, name);
      if c.result.Success? {
        ConversationRunPreservesValid(c.service, cfg, c.result.value, now);
        var v := ConversationRun(c.service, cfg, c.result.value, now);
        if v.result.Success? {
          MessagePost(v.service, v.result.value, text, isOutgoing);
        }
      }
    }
  }

  /** On a healthy Chatwoot a relay for an enabled tenant is delivered, and a second relay from the
      same JID lands in the same contact and the same conversation without creating either:
      one WhatsApp thread maps to one ongoing Chatwoot conversation. */
  lemma {:induction false} RelayTwiceReusesThread(
    s: ChatwootState, users: seq<UserRow>, userId: string, jid: string,
    name1: string, text1: string, isOutgoing1: bool, now1: int,
    name2: string, text2: string, isOutgoing2: bool, now2: int)
    requires Healthy(s)
    requires LoadConfig(users, userId).Some? && Complete(LoadConfig(users, userId).value)
    ensures var r1 := Relay(s, users, userId, jid, name1, text1, isOutgoing1, now1);
      var r2 := Relay(r1.service, users, userId, jid, name2, text2, isOutgoing2, now2);
      && r1.outcome.Delivered?
      && r1.service.messages == s.messages + [Message(r1.outcome.conversationId, text1, MessageType(isOutgoing1), false)]
      && r2.outcome == r1.outcome
      && r2.service.contacts == r1.service.contacts
      && r2.service.conversations == r1.service.conversations
      && r2.service.messages == r1.service.messages + [Message(r1.outcome.conversationId, text2, MessageType(isOutgoing2), false)]
  {
    var cfg := LoadConfig(users, userId).value;
    var key := Jid.ContactKey(jid);
    // First relay.
    ContactRunHealthy(s, cfg, key, name1);
    var c1 := ContactRun(s, cfg, key, name1);
    var contactId := c1.result.value;
    ConversationRunHealthy(c1.service, cfg, contactId, now1);
    var v1 := ConversationRun(c1.service, cfg, contactId, now1);
    var conversationId := v1.result.value;
    MessagePost(v1.service, conversationId, text1, isOutgoing1);
    var m1 := MessageRun(v1.service, conversationId, text1, isOutgoing1);
    // Second relay: the search and the listing now find what the first one used.
    ContactFoundCreatesNothing(m1.service, cfg, key, name2);
    var c2 := ContactRun(m1.service, cfg, key, name2);
    ConversationReused(c2.service, cfg, contactId, now2);
    var v2 := ConversationRun(c2.service, cfg, contactId, now2);
    MessagePost(v2.service, conversationId, text2, isOutgoing2);
  }
}
