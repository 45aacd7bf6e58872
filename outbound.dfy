/** The WhatsApp-to-Chatwoot relay: `sendToChatwoot` and the three Chatwoot helpers it runs in order.
    Each operation is given twice: a function from the Chatwoot state before to the result and the
    Chatwoot state after (the specification), and a method that performs the calls on a
    `ChatwootService` step by step, proved to agree with it. */
module Outbound {
  import opened Wrappers
  import opened Sequences
  import opened Chatwoot
  import opened Tenants
  import Jid
  import Numerals

  /** An error a helper returns: a transport failure, or (for the message post only) an HTTP
      status of 400 or more. */
  datatype Error = Transport | Status(code: int)

  /** The result of a helper and the Chatwoot state after it. */
  datatype Run<T> = Run(result: Result<T, Error>, service: ChatwootState)

  /** Where a relay ended; each failure is what the relay logs. */
  datatype Outcome =
    | NoConfig
    | Disabled
    | ContactFailed(error: Error)
    | ConversationFailed(error: Error)
    | MessageFailed(error: Error)
    | Delivered(contactId: int, conversationId: int)

  datatype RelayRun = RelayRun(outcome: Outcome, service: ChatwootState)

  /** A conversation the bridge may reuse. */
  predicate IsActive(status: string) {
    status == "open" || status == "pending"
  }

  predicate ActiveEntry(e: ConversationEntry) {
    IsActive(e.status)
  }

  /** The `source_id` of a conversation opened at Unix time `now`: `conv_<now>`. */
  function ConversationSourceId(now: int): string {
    "conv_" + Numerals.Decimal(now)
  }

  /** The `message_type` of a relayed message. */
  function MessageType(isOutgoing: bool): (t: string)
    ensures t == "outgoing" <==> isOutgoing
    ensures t == "incoming" <==> !isOutgoing
  {
    if isOutgoing then "outgoing" else "incoming"
  }

  /** How the bridge reads the reply to a message post: only a status of 400 or more, or a
      transport failure, is an error. */
  function PostOutcome(reply: Reply<()>): (r: Result<(), Error>)
    ensures r.Success? <==> reply.Http? && reply.status < 400
    ensures r.Failure? && reply.Http? ==> r.error == Status(reply.status)
  {
    match reply
    case TransportError => Failure(Transport)
    case Http(status, _) => if status >= 400 then Failure(Status(status)) else Success(())
  }

  /** Find-or-create contact. The status of both replies is ignored: an undecodable search body
      reads as no results, an undecodable create body as contact 0. */
  function ContactRun(s: ChatwootState, cfg: Config, key: string, name: string): Run<int> {
    var searched := SearchStep(s, key);
    match searched.reply
    case TransportError => Run(Failure(Transport), searched.after)
    case Http(_, body) =>
      var ids := body.GetOr([]);
      if |ids| > 0 then Run(Success(ids[0]), searched.after)
      else
        var created := CreateContactStep(searched.after, cfg.inboxId, name, key, key);
        match created.reply
        case TransportError => Run(Failure(Transport), created.after)
        case Http(_, id) => Run(Success(id.GetOr(0)), created.after)
  }

  /** Find-or-create conversation: the first open or pending conversation of the listing,
      otherwise a new one. Statuses are ignored as in `ContactRun`. */
  function ConversationRun(s: ChatwootState, cfg: Config, contactId: int, now: int): Run<int> {
    var listed := ListStep(s, contactId);
    match listed.reply
    case TransportError => Run(Failure(Transport), listed.after)
    case Http(_, body) =>
      var entries := body.GetOr([]);
      match FirstIndex(entries, ActiveEntry)
      case Some(k) => Run(Success(entries[k].id), listed.after)
      case None =>
        var created := CreateConversationStep(listed.after, ConversationSourceId(now), contactId, cfg.inboxId);
        match created.reply
        case TransportError => Run(Failure(Transport), created.after)
        case Http(_, id) => Run(Success(id.GetOr(0)), created.after)
  }

  /** Posts the text as a public message of the given direction. */
  function MessageRun(s: ChatwootState, conversationId: int, text: string, isOutgoing: bool): Run<()> {
    var posted := CreateMessageStep(s, conversationId, text, MessageType(isOutgoing), false);
    Run(PostOutcome(posted.reply), posted.after)
  }

  /** The whole relay of one WhatsApp message of tenant `userId`. */
  function Relay(s: ChatwootState, users: seq<UserRow>, userId: string, jid: string, name: string,
                 text: string, isOutgoing: bool, now: int): RelayRun
  {
    match LoadConfig(users, userId)
    case None => RelayRun(NoConfig, s)
    case Some(cfg) =>
      if !Complete(cfg) then RelayRun(Disabled, s)
      else
        var contact := ContactRun(s, cfg, Jid.ContactKey(jid), name);
        if contact.result.Failure? then RelayRun(ContactFailed(contact.result.error), contact.service)
        else
          var conversation := ConversationRun(contact.service, cfg, contact.result.value, now);
          if conversation.result.Failure? then RelayRun(ConversationFailed(conversation.result.error), conversation.service)
          else
            var message := MessageRun(conversation.service, conversation.result.value, text, isOutgoing);
            if message.result.Failure? then RelayRun(MessageFailed(message.result.error), message.service)
            else RelayRun(Delivered(contact.result.value, conversation.result.value), message.service)
  }

  method FindOrCreateContact(service: ChatwootService, cfg: Config, key: string, name: string) returns (r: Result<int, Error>)
    modifies service
    ensures Run(r, service.State()) == ContactRun(old(service.State()), cfg, key, name)
  {
    var searched := service.SearchContacts(key);
    if searched.TransportError? {
      return Failure(Transport);
    }
    var ids := searched.body.GetOr([]);
    if |ids| > 0 {
      return Success(ids[0]);
    }
    var created := service.CreateContact(cfg.inboxId, name, key, key);
    if created.TransportError? {
      return Failure(Transport);
    }
    return Success(created.body.GetOr(0));
  }

  method FindOrCreateConversation(service: ChatwootService, cfg: Config, contactId: int, now: int) returns (r: Result<int, Error>)
    modifies service
    ensures Run(r, service.State()) == ConversationRun(old(service.State()), cfg, contactId, now)
  {
    var listed := service.ListConversations(contactId);
    if listed.TransportError? {
      return Failure(Transport);
    }
    var entries := listed.body.GetOr([]);
    var i := 0;
    while i < |entries|
      invariant 0 <= i <= |entries|
      invariant forall j :: 0 <= j < i ==> !ActiveEntry(entries[j])
    {
      if IsActive(entries[i].status) {
        FirstIndexAt(entries, ActiveEntry, i);
        return Success(entries[i].id);
      }
      i := i + 1;
    }
    var created := service.CreateConversation(ConversationSourceId(now), contactId, cfg.inboxId);
    if created.TransportError? {
      return Failure(Transport);
    }
    return Success(created.body.GetOr(0));
  }

  method SendMessage(service: ChatwootService, conversationId: int, text: string, isOutgoing: bool) returns (r: Result<(), Error>)
    modifies service
    ensures Run(r, service.State()) == MessageRun(old(service.State()), conversationId, text, isOutgoing)
  {
    var messageType := "incoming";
    if isOutgoing {
      messageType := "outgoing";
    }
    var posted := service.CreateMessage(conversationId, text, messageType, false);
    if posted.TransportError? {
      return Failure(Transport);
    }
    if posted.status >= 400 {
      return Failure(Status(posted.status));
    }
    return Success(());
  }

  /** `sendToChatwoot`: nothing is returned to the caller; every failure ends the relay. */
  method SendToChatwoot(service: ChatwootService, users: seq<UserRow>, userId: string, jid: string,
                        name: string, text: string, isOutgoing: bool, now: int)
    modifies service
    ensures service.State() == Relay(old(service.State()), users, userId, jid, name, text, isOutgoing, now).service
  {
    var loaded := LoadConfig(users, userId);
    if loaded.None? {
      return;
    }
    var cfg := loaded.value;
    if cfg.url == "" || cfg.accountId == "" || cfg.token == "" || cfg.inboxId == "" {
      return;
    }
    var key := Jid.ContactKey(jid);
    var contactId := FindOrCreateContact(service, cfg, key, name);
    if contactId.Failure? {
      return;
    }
    var conversationId := FindOrCreateConversation(service, cfg, contactId.value, now);
    if conversationId.Failure? {
      return;
    }
    var sent := SendMessage(service, conversationId.value, text, isOutgoing);
  }
}
