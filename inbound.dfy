/** The Chatwoot-to-WhatsApp relay: the `ChatwootWebhook` handler. The WhatsApp session registry is
    a map from tenant id to "connected"; the send itself is returned as the delivery the
    handler hands to the WhatsApp sender. */
module Inbound {
  import opened Wrappers
  import opened Tenants
  import Strings
  import Jid
  import Numerals
  import Chatwoot

  const StatusBadRequest: int := 400

  datatype ContactInbox = ContactInbox(sourceId: string)
  datatype ConversationRef = ConversationRef(id: int, contactInbox: ContactInbox)
  datatype Sender = Sender(id: int, name: string, kind: string)
  datatype Account = Account(id: int)

  /** A decoded webhook payload (the fields the bridge declares). */
  datatype Webhook = Webhook(
    event: string,
    id: int,
    content: string,
    messageType: string,
    contentType: string,
    conversation: ConversationRef,
    sender: Sender,
    account: Account)

  /** A text handed to the WhatsApp sender of tenant `userId` for address `to`. */
  datatype Delivery = Delivery(userId: string, to: string, text: string)

  /** The gate: a created message, outgoing, from a sender whose type does not contain
      `contact`. */
  predicate Relayable(w: Webhook) {
    w.event == "message_created" && w.messageType == "outgoing" && !Strings.HasSubstring(w.sender.kind, "contact")
  }

  /** Tenant resolution: the first row configured for the Chatwoot account (given as `%d` of the
      account id); failing that, the first row whose API token is the URL's `token`
      parameter, unless that parameter is empty. */
  function ResolveTenant(users: seq<UserRow>, accountId: int, urlToken: string): Option<string> {
    match ByAccount(users, Numerals.Decimal(accountId))
    case Some(userId) => Some(userId)
    case None => if urlToken == "" then None else ByToken(users, urlToken)
  }

  /** The tenant has a WhatsApp client and it is connected. */
  predicate Connected(sessions: map<string, bool>, userId: string) {
    userId in sessions && sessions[userId]
  }

  /** `ChatwootWebhook`. `body` is `None` when the request body does not decode. */
  method HandleWebhook(body: Option<Webhook>, urlToken: string, users: seq<UserRow>, sessions: map<string, bool>)
    returns (status: int, sent: Option<Delivery>)
    ensures status == (if body.None? then StatusBadRequest else Chatwoot.StatusOk)
    ensures sent.Some? <==>
              && body.Some? && Relayable(body.value)
              && ResolveTenant(users, body.value.account.id, urlToken).Some?
              && Connected(sessions, ResolveTenant(users, body.value.account.id, urlToken).value)
    ensures sent.Some? ==>
              sent.value == Delivery(ResolveTenant(users, body.value.account.id, urlToken).value,
                                     Jid.NormalizeJid(body.value.conversation.contactInbox.sourceId),
                                     body.value.content)
  {
    if body.None? {
      return StatusBadRequest, None;
    }
    var webhook := body.value;
    if webhook.event == "message_created" && webhook.messageType == "outgoing" && !Strings.HasSubstring(webhook.sender.kind, "contact") {
      var userId: string;
      var byAccount := ByAccount(users, Numerals.Decimal(webhook.account.id));
      if byAccount.Some? {
        userId := byAccount.value;
      } else {
        var token := urlToken;
        if token == "" {
          return Chatwoot.StatusOk, None;
        }
        var byToken := ByToken(users, token);
        if byToken.None? {
          return Chatwoot.StatusOk, None;
        }
        userId := byToken.value;
      }
      if userId !in sessions || !sessions[userId] {
        return Chatwoot.StatusOk, None;
      }
      var targetJid := webhook.conversation.contactInbox.sourceId;
      if !Strings.HasSubstring(targetJid, "@") {
        assert targetJid + "@s.whatsapp.net" == targetJid + "@" + Jid.UserServer;
        targetJid := targetJid + "@s.whatsapp.net";
      }
      return Chatwoot.StatusOk, Some(Delivery(userId, targetJid, webhook.content));
    }
    return Chatwoot.StatusOk, None;
  }

  /** When some row is configured for the account, the URL token plays no part. */
  lemma AccountTierFirst(users: seq<UserRow>, accountId: int, token1: string, token2: string)
    requires exists i :: 0 <= i < |users| && AccountRow(users[i], Numerals.Decimal(accountId))
    ensures ResolveTenant(users, accountId, token1) == ResolveTenant(users, accountId, token2)
    ensures ResolveTenant(users, accountId, token1) == ByAccount(users, Numerals.Decimal(accountId))
  {
  }

  /** Without an account match, an empty URL token resolves nobody, even a row whose API token
      is empty. */
  lemma EmptyTokenResolvesNobody(users: seq<UserRow>, accountId: int)
    requires forall i :: 0 <= i < |users| ==> !AccountRow(users[i], Numerals.Decimal(accountId))
    ensures ResolveTenant(users, accountId, "") == None
  {
  }

  /** A resolved tenant is a row that either is configured for the account or carries the URL
      token. */
  lemma ResolvedTenantIsARow(users: seq<UserRow>, accountId: int, urlToken: string)
    requires ResolveTenant(users, accountId, urlToken).Some?
    ensures exists i :: 0 <= i < |users| && users[i].id == ResolveTenant(users, accountId, urlToken).value
                          && (AccountRow(users[i], Numerals.Decimal(accountId)) || (urlToken != "" && users[i].token == urlToken))
  {
  }

  /** Without an account match, a non-empty URL token resolves to the first row carrying it. */
  lemma TokenTierFallback(users: seq<UserRow>, accountId: int, urlToken: string)
    requires forall i :: 0 <= i < |users| ==> !AccountRow(users[i], Numerals.Decimal(accountId))
    requires urlToken != ""
    ensures ResolveTenant(users, accountId, urlToken) == ByToken(users, urlToken)
  {
  }

  /** A row answers to at most one Chatwoot account id: stored account ids are compared as the
      exact decimal text of the webhook's account id. */
  lemma AccountRowMatchesOneId(row: UserRow, a: int, b: int)
    requires AccountRow(row, Numerals.Decimal(a)) && AccountRow(row, Numerals.Decimal(b))
    ensures a == b
  {
    Numerals.DecimalInjective(a, b);
  }

  /** A row whose account column was cleared to the empty string matches no webhook. */
  lemma ClearedAccountMatchesNothing(row: UserRow, accountId: int)
    requires row.chatwootAccountId == Some("")
    ensures !AccountRow(row, Numerals.Decimal(accountId))
  {
  }

  /** A row whose Chatwoot token is the empty string, but not NULL, still qualifies. */
  lemma EmptyChatwootTokenQualifies(row: UserRow, accountId: int)
    requires row.chatwootAccountId == Some(Numerals.Decimal(accountId)) && row.chatwootToken == Some("")
    ensures AccountRow(row, Numerals.Decimal(accountId))
  {
  }

  /** The gate drops every sender type that contains `contact` anywhere. */
  lemma ContactSendersDropped(w: Webhook, i: nat)
    requires i + 7 <= |w.sender.kind| && w.sender.kind[i..i + 7] == "contact"
    ensures !Relayable(w)
  {
    Strings.HasSubstringIff(w.sender.kind, "contact");
    assert Strings.OccursAt(w.sender.kind, "contact", i);
  }
}
