/** utils/config.ts: the account record of the configuration file, and the
    per-account runtime credentials the OAuth exchange produces. */
module Config {
  import opened Wrappers

  datatype Settings = Settings(staminaCheck: bool, staminaThreshold: Option<int>, dailyCheck: bool)

  /** A configured account. "" stands for an absent `cred` or `account_token`,
      which every reader tests only for truthiness. */
  datatype Account = Account(
    name: string,
    cred: string,
    skGameRole: string,
    accountToken: string,
    settings: Option<Settings>)

  /** What `setRuntimeCredentials` stores per account name. */
  datatype RuntimeCredentials = RuntimeCredentials(
    cred: string,
    salt: string,
    userId: string,
    hgId: Option<string>,
    obtainedAt: int)

  /** The in-memory credential store keyed by account name. */
  class CredentialStore {
    var entries: map<string, RuntimeCredentials>

    constructor ()
      ensures entries == map[]
    {
      entries := map[];
    }

    /** `getRuntimeCredentials`. */
    function Get(name: string): (r: Option<RuntimeCredentials>)
      reads this
      ensures r.Some? <==> name in entries
      ensures r.Some? ==> r.value == entries[name]
    {
      if name in entries then Some(entries[name]) else None
    }

    /** `setRuntimeCredentials`: replaces the whole record for the name.
        A later `getRuntimeCredentials` of that name returns the new record,
        and every other name reads as before. */
    method Set(name: string, c: RuntimeCredentials)
      modifies this
      ensures entries == old(entries)[name := c]
      ensures Get(name) == Some(c)
      ensures forall other :: other != name ==> Get(other) == old(Get(other))
    {
      entries := entries[name := c];
    }
  }
}
