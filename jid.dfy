/** WhatsApp addresses (JIDs, `user@server`) and the contact key the bridge derives from them. */
module Jid {
  import Strings

  /** The server part of an individual WhatsApp user's JID. */
  const UserServer: string := "s.whatsapp.net"

  /** The contact key: everything before the first `@` (the whole JID when it has none),
      as `strings.Split(jid, "@")[0]`. */
  function ContactKey(jid: string): (key: string)
    ensures '@' !in key
    ensures |key| <= |jid| && key == jid[..|key|]
    ensures |key| == |jid| || jid[|key|] == '@'
  {
    if jid == [] || jid[0] == '@' then []
    else
      var rest := ContactKey(jid[1..]);
      assert jid[1..][..|rest|] == jid[1..|rest| + 1];
      [jid[0]] + rest
  }

  /** `user` is the text of `jid` before its first `@` (all of `jid` when there is none). */
  ghost predicate IsUserPart(jid: string, user: string) {
    && '@' !in user
    && (jid == user || (|user| < |jid| && jid[..|user|] == user && jid[|user|] == '@'))
  }

  /** The key is exactly the user part: it is one, and nothing else is. */
  lemma {:induction false} KeyIsUserPart(jid: string, user: string)
    ensures ContactKey(jid) == user <==> IsUserPart(jid, user)
  {
    if IsUserPart(jid, user) && user != [] {
      assert jid[0] == user[0];
      assert IsUserPart(jid[1..], user[1..]) by {
        if jid != user {
          assert jid[1..][..|user| - 1] == jid[..|user|][1..];
        }
      }
      KeyIsUserPart(jid[1..], user[1..]);
    }
  }

  /** The key of `user@server` is `user`, whatever the server. */
  lemma KeyOfUserAt(user: string, server: string)
    requires '@' !in user
    ensures ContactKey(user + "@" + server) == user
  {
    var jid := user + "@" + server;
    assert jid[..|user|] == user;
    KeyIsUserPart(jid, user);
  }

  /** JIDs that agree on their user part give the same key; so does the bare user. */
  lemma SameUserSameKey(user: string, server1: string, server2: string)
    requires '@' !in user
    ensures ContactKey(user + "@" + server1) == ContactKey(user + "@" + server2)
    ensures ContactKey(user + "@" + server1) == ContactKey(user)
  {
    KeyOfUserAt(user, server1);
    KeyOfUserAt(user, server2);
    KeyIsUserPart(user, user);
  }

  /** The device part of a multi-device JID (`user:device@server`) stays in the key, so such a
      JID and the plain `user@server` get different keys. */
  lemma DeviceSuffixStaysInKey(user: string, device: string, server: string)
    requires '@' !in user && '@' !in device
    ensures ContactKey(user + ":" + device + "@" + server) == user + ":" + device
    ensures ContactKey(user + ":" + device + "@" + server) != ContactKey(user + "@" + server)
  {
    assert '@' !in user + ":" + device;
    assert user + ":" + device + "@" + server == (user + ":" + device) + "@" + server;
    KeyOfUserAt(user + ":" + device, server);
    KeyOfUserAt(user, server);
  }

  /** The delivery address for a Chatwoot source ID: unchanged when it has an `@`, otherwise
      suffixed with the user server. */
  function NormalizeJid(sourceId: string): (jid: string)
    ensures Strings.HasSubstring(jid, "@")
    ensures Strings.HasSubstring(sourceId, "@") ==> jid == sourceId
    ensures !Strings.HasSubstring(sourceId, "@") ==> jid == sourceId + "@" + UserServer
  {
    Strings.HasCharIff(sourceId, '@');
    Strings.HasCharIff(sourceId + "@" + UserServer, '@');
    if !Strings.HasSubstring(sourceId, "@") then sourceId + "@" + UserServer else sourceId
  }

  /** Normalizing an address twice changes nothing more. */
  lemma NormalizeIdempotent(sourceId: string)
    ensures NormalizeJid(NormalizeJid(sourceId)) == NormalizeJid(sourceId)
  {
  }

  /** Relaying back to a contact key reaches the JID the key came from, and the key of that
      address is the key itself. */
  lemma KeyNormalizeRoundTrip(key: string)
    requires '@' !in key
    ensures NormalizeJid(key) == key + "@" + UserServer
    ensures ContactKey(NormalizeJid(key)) == key
  {
    Strings.HasCharIff(key, '@');
    KeyOfUserAt(key, UserServer);
  }
}
