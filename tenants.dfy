/** The `users` table as the bridge reads it: each tenant's Chatwoot configuration and the two
    lookups the webhook uses to find a tenant. Rows are in the order the database returns
    them, so `LIMIT 1` is the first matching row. */
module Tenants {
  import opened Wrappers
  import opened Sequences

  /** One row of `users`. A `None` column is SQL NULL. */
  datatype UserRow = UserRow(
    id: string,
    token: string,
    chatwootUrl: Option<string>,
    chatwootAccountId: Option<string>,
    chatwootToken: Option<string>,
    chatwootInboxId: Option<string>)

  /** A tenant's Chatwoot configuration. */
  datatype Config = Config(url: string, accountId: string, token: string, inboxId: string)

  /** The bridge is enabled for a tenant only when all four fields are set. */
  predicate Complete(cfg: Config) {
    cfg.url != "" && cfg.accountId != "" && cfg.token != "" && cfg.inboxId != ""
  }

  /** Some Chatwoot column of the row is NULL. */
  predicate HasNull(row: UserRow) {
    row.chatwootUrl.None? || row.chatwootAccountId.None? ||
    row.chatwootToken.None? || row.chatwootInboxId.None?
  }

  /** Reads the configuration of tenant `userId` from its (first) row. A missing row, or a
      NULL in any of the four columns (which cannot be scanned into a string), is a failed
      read. */
  function LoadConfig(users: seq<UserRow>, userId: string): (cfg: Option<Config>)
    ensures cfg.Some? ==>
              exists i :: 0 <= i < |users| && users[i].id == userId
                            && users[i].chatwootUrl == Some(cfg.value.url)
                            && users[i].chatwootAccountId == Some(cfg.value.accountId)
                            && users[i].chatwootToken == Some(cfg.value.token)
                            && users[i].chatwootInboxId == Some(cfg.value.inboxId)
                            && forall j :: 0 <= j < i ==> users[j].id != userId
    ensures cfg.None? <==>
              || (forall i :: 0 <= i < |users| ==> users[i].id != userId)
              || (exists i :: 0 <= i < |users| && users[i].id == userId && HasNull(users[i])
                                && forall j :: 0 <= j < i ==> users[j].id != userId)
  {
    match FirstIndex(users, (row: UserRow) => row.id == userId)
    case None => None
    case Some(i) =>
      var row := users[i];
      if HasNull(row) then None
      else Some(Config(row.chatwootUrl.value, row.chatwootAccountId.value,
                       row.chatwootToken.value, row.chatwootInboxId.value))
  }

  /** The account-tier filter: the Chatwoot account column equals `account` and the Chatwoot token
      column is not NULL (an empty token still qualifies). */
  predicate AccountRow(row: UserRow, account: string) {
    row.chatwootAccountId == Some(account) && row.chatwootToken.Some?
  }

  /** `SELECT id FROM users WHERE chatwoot_account_id = account AND chatwoot_token IS NOT NULL LIMIT 1`. */
  function ByAccount(users: seq<UserRow>, account: string): (r: Option<string>)
    ensures r.Some? ==>
              exists i :: 0 <= i < |users| && AccountRow(users[i], account) && users[i].id == r.value
                            && forall j :: 0 <= j < i ==> !AccountRow(users[j], account)
    ensures r.None? <==> forall i :: 0 <= i < |users| ==> !AccountRow(users[i], account)
  {
    match FirstIndex(users, (row: UserRow) => AccountRow(row, account))
    case None => None
    case Some(i) => Some(users[i].id)
  }

  /** `SELECT id FROM users WHERE token = token LIMIT 1`. */
  function ByToken(users: seq<UserRow>, token: string): (r: Option<string>)
    ensures r.Some? ==>
              exists i :: 0 <= i < |users| && users[i].token == token && users[i].id == r.value
                            && forall j :: 0 <= j < i ==> users[j].token != token
    ensures r.None? <==> forall i :: 0 <= i < |users| ==> users[i].token != token
  {
    match FirstIndex(users, (row: UserRow) => row.token == token)
    case None => None
    case Some(i) => Some(users[i].id)
  }
}
