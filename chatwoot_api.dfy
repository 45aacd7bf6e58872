/** The Chatwoot service as the bridge sees it: contacts, conversations and messages,
    the log of requests the bridge has issued, and the five endpoints the bridge calls.

    An endpoint can be `down` (the request fails in transport) or `rejecting` (it answers
    401 with a body that does not decode). Chatwoot itself answers 404 when a conversation is
    opened for an unknown contact or a message is posted to an unknown conversation. */
module Chatwoot {
  import opened Wrappers

  const StatusOk: int := 200
  const StatusUnauthorized: int := 401
  const StatusNotFound: int := 404

  /** The status Chatwoot gives a new conversation. */
  const OpenStatus: string := "open"

  datatype Contact = Contact(id: int, identifier: string, name: string, inboxId: string, sourceId: string)
  datatype Conversation = Conversation(id: int, contactId: int, inboxId: string, sourceId: string, status: string)
  datatype Message = Message(conversationId: int, content: string, messageType: string, isPrivate: bool)

  /** One element of a contact's conversation listing: the two fields the bridge decodes. */
  datatype ConversationEntry = ConversationEntry(id: int, status: string)

  datatype Endpoint = ContactSearch | ContactCreate | ConversationList | ConversationCreate | MessageCreate

  /** A request the bridge sends, with the payload fields it carries. */
  datatype Request =
    | GetContactSearch(query: string)
    | PostContact(inboxId: string, name: string, identifier: string, sourceId: string)
    | GetConversations(contactId: int)
    | PostConversation(sourceId: string, contactId: int, inboxId: string)
    | PostMessage(conversationId: int, content: string, messageType: string, isPrivate: bool)

  /** What a call returns to the bridge: a transport error, or a status with a body that may
      or may not decode. */
  datatype Reply<T> = TransportError | Http(status: int, body: Option<T>)

  datatype ChatwootState = ChatwootState(
    contacts: seq<Contact>,
    conversations: seq<Conversation>,
    messages: seq<Message>,
    log: seq<Request>,
    nextId: int,
    down: set<Endpoint>,
    rejecting: set<Endpoint>)

  /** A reply together with the Chatwoot state after the call. */
  datatype Exchange<T> = Exchange(reply: Reply<T>, after: ChatwootState)

  /** Every endpoint answers normally. */
  predicate Healthy(s: ChatwootState) {
    s.down == {} && s.rejecting == {}
  }

  /** Ids are positive, below the next id to hand out, and distinct among contacts and among
      conversations. */
  ghost predicate Valid(s: ChatwootState) {
    && s.nextId > 0
    && (forall i :: 0 <= i < |s.contacts| ==> 0 < s.contacts[i].id < s.nextId)
    && (forall i, j :: 0 <= i < j < |s.contacts| ==> s.contacts[i].id != s.contacts[j].id)
    && (forall i :: 0 <= i < |s.conversations| ==> 0 < s.conversations[i].id < s.nextId)
    && (forall i, j :: 0 <= i < j < |s.conversations| ==> s.conversations[i].id != s.conversations[j].id)
  }

  /** Ids of the contacts whose identifier is `query`, in creation order. */
  function SearchIds(contacts: seq<Contact>, query: string): seq<int> {
    if contacts == [] then []
    else
      var last := contacts[|contacts| - 1];
      SearchIds(contacts[..|contacts| - 1], query) + (if last.identifier == query then [last.id] else [])
  }

  /** The listing of the conversations of contact `contactId`, in creation order. */
  function Listing(conversations: seq<Conversation>, contactId: int): seq<ConversationEntry> {
    if conversations == [] then []
    else
      var last := conversations[|conversations| - 1];
      Listing(conversations[..|conversations| - 1], contactId) +
        (if last.contactId == contactId then [ConversationEntry(last.id, last.status)] else [])
  }

  predicate HasContact(contacts: seq<Contact>, id: int) {
    exists i :: 0 <= i < |contacts| && contacts[i].id == id
  }

  predicate HasConversation(conversations: seq<Conversation>, id: int) {
    exists i :: 0 <= i < |conversations| && conversations[i].id == id
  }

  /** The state with `r` recorded as issued. */
  function Issue(s: ChatwootState, r: Request): ChatwootState {
    s.(log := s.log + [r])
  }

  function SearchStep(s: ChatwootState, query: string): Exchange<seq<int>> {
    var s' := Issue(s, GetContactSearch(query));
    if ContactSearch in s.down then Exchange(TransportError, s')
    else if ContactSearch in s.rejecting then Exchange(Http(StatusUnauthorized, None), s')
    else Exchange(Http(StatusOk, Some(SearchIds(s.contacts, query))), s')
  }

  function CreateContactStep(s: ChatwootState, inboxId: string, name: string, identifier: string, sourceId: string): Exchange<int> {
    var s' := Issue(s, PostContact(inboxId, name, identifier, sourceId));
    if ContactCreate in s.down then Exchange(TransportError, s')
    else if ContactCreate in s.rejecting then Exchange(Http(StatusUnauthorized, None), s')
    else
      var c := Contact(s.nextId, identifier, name, inboxId, sourceId);
      Exchange(Http(StatusOk, Some(s.nextId)), s'.(contacts := s.contacts + [c], nextId := s.nextId + 1))
  }

  function ListStep(s: ChatwootState, contactId: int): Exchange<seq<ConversationEntry>> {
    var s' := Issue(s, GetConversations(contactId));
    if ConversationList in s.down then Exchange(TransportError, s')
    else if ConversationList in s.rejecting then Exchange(Http(StatusUnauthorized, None), s')
    else Exchange(Http(StatusOk, Some(Listing(s.conversations, contactId))), s')
  }

  function CreateConversationStep(s: ChatwootState, sourceId: string, contactId: int, inboxId: string): Exchange<int> {
    var s' := Issue(s, PostConversation(sourceId, contactId, inboxId));
    if ConversationCreate in s.down then Exchange(TransportError, s')
    else if ConversationCreate in s.rejecting then Exchange(Http(StatusUnauthorized, None), s')
    else if !HasContact(s.contacts, contactId) then Exchange(Http(StatusNotFound, None), s')
    else
      var c := Conversation(s.nextId, contactId, inboxId, sourceId, OpenStatus);
      Exchange(Http(StatusOk, Some(s.nextId)), s'.(conversations := s.conversations + [c], nextId := s.nextId + 1))
  }

  function CreateMessageStep(s: ChatwootState, conversationId: int, content: string, messageType: string, isPrivate: bool): Exchange<()> {
    var s' := Issue(s, PostMessage(conversationId, content, messageType, isPrivate));
    if MessageCreate in s.down then Exchange(TransportError, s')
    else if MessageCreate in s.rejecting then Exchange(Http(StatusUnauthorized, None), s')
    else if !HasConversation(s.conversations, conversationId) then Exchange(Http(StatusNotFound, None), s')
    else
      var m := Message(conversationId, content, messageType, isPrivate);
      Exchange(Http(StatusOk, Some(())), s'.(messages := s.messages + [m]))
  }

  /** A search finds exactly the contacts carrying the identifier. */
  lemma {:induction false} SearchIdsSound(contacts: seq<Contact>, query: string, id: int)
    ensures id in SearchIds(contacts, query) <==>
              exists i :: 0 <= i < |contacts| && contacts[i].id == id && contacts[i].identifier == query
  {
    if contacts != [] {
      var init := contacts[..|contacts| - 1];
      SearchIdsSound(init, query, id);
      if exists i :: 0 <= i < |init| && init[i].id == id && init[i].identifier == query {
        var i :| 0 <= i < |init| && init[i].id == id && init[i].identifier == query;
        assert contacts[i] == init[i];
      }
      if exists i :: 0 <= i < |contacts| && contacts[i].id == id && contacts[i].identifier == query {
        var i :| 0 <= i < |contacts| && contacts[i].id == id && contacts[i].identifier == query;
        if i < |init| {
          assert init[i] == contacts[i];
        }
      }
    }
  }

  /** Every listed entry is a conversation of that contact, with its id and status. */
  lemma {:induction false} ListingSound(conversations: seq<Conversation>, contactId: int, k: nat)
    requires k < |Listing(conversations, contactId)|
    ensures exists i :: 0 <= i < |conversations|
                          && conversations[i].contactId == contactId
                          && conversations[i].id == Listing(conversations, contactId)[k].id
                          && conversations[i].status == Listing(conversations, contactId)[k].status
  {
    var init := conversations[..|conversations| - 1];
    var last := conversations[|conversations| - 1];
    if k < |Listing(init, contactId)| {
      ListingSound(init, contactId, k);
      var i :| 0 <= i < |init| && init[i].contactId == contactId
                 && init[i].id == Listing(init, contactId)[k].id
                 && init[i].status == Listing(init, contactId)[k].status;
      assert conversations[i] == init[i];
    } else {
      assert Listing(conversations, contactId)[k] == ConversationEntry(last.id, last.status);
    }
  }

  /** Creating a contact keeps ids positive, fresh and distinct. */
  lemma CreateContactPreservesValid(s: ChatwootState, inboxId: string, name: string, identifier: string, sourceId: string)
    requires Valid(s)
    ensures Valid(CreateContactStep(s, inboxId, name, identifier, sourceId).after)
  {
    var t := CreateContactStep(s, inboxId, name, identifier, sourceId).after;
    if t.contacts != s.contacts {
      forall i | 0 <= i < |t.contacts| ensures 0 < t.contacts[i].id < t.nextId {
        if i < |s.contacts| {
          assert t.contacts[i] == s.contacts[i];
        }
      }
      forall i, j | 0 <= i < j < |t.contacts| ensures t.contacts[i].id != t.contacts[j].id {
        assert t.contacts[i] == s.contacts[i];
        if j < |s.contacts| {
          assert t.contacts[j] == s.contacts[j];
        }
      }
    }
  }

  /** Opening a conversation keeps ids positive, fresh and distinct. */
  lemma CreateConversationPreservesValid(s: ChatwootState, sourceId: string, contactId: int, inboxId: string)
    requires Valid(s)
    ensures Valid(CreateConversationStep(s, sourceId, contactId, inboxId).after)
  {
    var t := CreateConversationStep(s, sourceId, contactId, inboxId).after;
    if t.conversations != s.conversations {
      assert t.conversations == s.conversations + [t.conversations[|s.conversations|]];
      forall i | 0 <= i < |t.conversations| ensures 0 < t.conversations[i].id < t.nextId {
        if i < |s.conversations| {
          assert t.conversations[i] == s.conversations[i];
        }
      }
      forall i, j | 0 <= i < j < |t.conversations|
        ensures t.conversations[i].id != t.conversations[j].id
      {
        if j < |s.conversations| {
          assert t.conversations[i] == s.conversations[i] && t.conversations[j] == s.conversations[j];
        } else {
          assert t.conversations[i] == s.conversations[i];
        }
      }
    }
  }

  /** The Chatwoot service as an object whose endpoints change its state. */
  class ChatwootService {
    var contacts: seq<Contact>
    var conversations: seq<Conversation>
    var messages: seq<Message>
    var log: seq<Request>
    var nextId: int
    const down: set<Endpoint>
    const rejecting: set<Endpoint>

    /** The whole state as a value. */
    function State(): ChatwootState
      reads this
    {
      ChatwootState(contacts, conversations, messages, log, nextId, down, rejecting)
    }

    /** An empty Chatwoot whose endpoints fail as given. */
    constructor (down: set<Endpoint>, rejecting: set<Endpoint>)
      ensures State() == ChatwootState([], [], [], [], 1, down, rejecting)
      ensures Valid(State())
    {
      contacts, conversations, messages, log, nextId := [], [], [], [], 1;
      this.down, this.rejecting := down, rejecting;
    }

    /** `GET /contacts/search?q=query`. */
    method SearchContacts(query: string) returns (reply: Reply<seq<int>>)
      modifies this
      ensures Exchange(reply, State()) == SearchStep(old(State()), query)
    {
      log := log + [GetContactSearch(query)];
      if ContactSearch in down {
        reply := TransportError;
      } else if ContactSearch in rejecting {
        reply := Http(StatusUnauthorized, None);
      } else {
        reply := Http(StatusOk, Some(SearchIds(contacts, query)));
      }
    }

    /** `POST /contacts`. */
    method CreateContact(inboxId: string, name: string, identifier: string, sourceId: string) returns (reply: Reply<int>)
      modifies this
      ensures Exchange(reply, State()) == CreateContactStep(old(State()), inboxId, name, identifier, sourceId)
    {
      log := log + [PostContact(inboxId, name, identifier, sourceId)];
      if ContactCreate in down {
        reply := TransportError;
      } else if ContactCreate in rejecting {
        reply := Http(StatusUnauthorized, None);
      } else {
        contacts := contacts + [Contact(nextId, identifier, name, inboxId, sourceId)];
        reply := Http(StatusOk, Some(nextId));
        nextId := nextId + 1;
      }
    }

    /** `GET /contacts/{id}/conversations`. */
    method ListConversations(contactId: int) returns (reply: Reply<seq<ConversationEntry>>)
      modifies this
      ensures Exchange(reply, State()) == ListStep(old(State()), contactId)
    {
      log := log + [GetConversations(contactId)];
      if ConversationList in down {
        reply := TransportError;
      } else if ConversationList in rejecting {
        reply := Http(StatusUnauthorized, None);
      } else {
        reply := Http(StatusOk, Some(Listing(conversations, contactId)));
      }
    }

    /** `POST /conversations`. */
    method CreateConversation(sourceId: string, contactId: int, inboxId: string) returns (reply: Reply<int>)
      modifies this
      ensures Exchange(reply, State()) == CreateConversationStep(old(State()), sourceId, contactId, inboxId)
    {
      log := log + [PostConversation(sourceId, contactId, inboxId)];
      if ConversationCreate in down {
        reply := TransportError;
      } else if ConversationCreate in rejecting {
        reply := Http(StatusUnauthorized, None);
      } else if !HasContact(contacts, contactId) {
        reply := Http(StatusNotFound, None);
      } else {
        conversations := conversations + [Conversation(nextId, contactId, inboxId, sourceId, OpenStatus)];
        reply := Http(StatusOk, Some(nextId));
        nextId := nextId + 1;
      }
    }

    /** `POST /conversations/{id}/messages`. */
    method CreateMessage(conversationId: int, content: string, messageType: string, isPrivate: bool) returns (reply: Reply<()>)
      modifies this
      ensures Exchange(reply, State()) == CreateMessageStep(old(State()), conversationId, content, messageType, isPrivate)
    {
      log := log + [PostMessage(conversationId, content, messageType, isPrivate)];
      if MessageCreate in down {
        reply := TransportError;
      } else if MessageCreate in rejecting {
        reply := Http(StatusUnauthorized, None);
      } else if !HasConversation(conversations, conversationId) {
        reply := Http(StatusNotFound, None);
      } else {
        messages := messages + [Message(conversationId, content, messageType, isPrivate)];
        reply := Http(StatusOk, Some(()));
      }
    }
  }
}
