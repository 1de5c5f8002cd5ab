/** The host's key-value settings store, seen as a map from option name to
    value, and the four option names this module owns. */
module Options {
  import opened PhpJson

  type Store = map<string, Json>

  const ProjectKeyKey := "qonversionintegration.project_key"
  const ProjectIdKey := "qonversionintegration.project_id"
  const EnvironmentKey := "qonversionintegration.environment"
  const MailboxesKey := "qonversionintegration.mailboxes"

  const OwnKeys: set<string> := {ProjectKeyKey, ProjectIdKey, EnvironmentKey, MailboxesKey}

  /** The four option names are pairwise different. */
  lemma KeysDistinct()
    ensures ProjectKeyKey != ProjectIdKey && ProjectKeyKey != EnvironmentKey && ProjectKeyKey != MailboxesKey
    ensures ProjectIdKey != EnvironmentKey && ProjectIdKey != MailboxesKey && EnvironmentKey != MailboxesKey
  {
    assert ProjectKeyKey[30] == 'k' && ProjectIdKey[30] == 'i';
    assert ProjectKeyKey[22] == 'p' && EnvironmentKey[22] == 'e' && MailboxesKey[22] == 'm';
    assert ProjectIdKey[22] == 'p';
  }

  /** `Option::get($key, $default)`: the stored value, or `default` when the key was never set. */
  function Get(store: Store, key: string, default: Json): (v: Json)
    ensures key in store ==> v == store[key]
    ensures key !in store ==> v == default
  {
    if key in store then store[key] else default
  }
}
