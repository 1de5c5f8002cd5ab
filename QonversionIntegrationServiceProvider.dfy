/** The decisions of Providers/QonversionIntegrationServiceProvider.php: the
    conversation sidebar hook (credential gate, mailbox allow-list, dashboard
    link) and the settings-section filters. The settings store is a map, the
    API lookup is an input, and rendering is the `Rendered` result. */
module QonversionIntegrationServiceProvider {
  import opened Wrappers
  import opened PhpJson
  import JsonCodec
  import Options
  import opened QonversionApiService

  // ----- credential gate ----------------------------------------------------

  /** Both `project_key` and `project_id` are set to PHP-truthy values. */
  predicate CredentialsConfigured(store: Options.Store) {
    !Falsy(Options.Get(store, Options.ProjectKeyKey, JNull))
    && !Falsy(Options.Get(store, Options.ProjectIdKey, JNull))
  }

  // ----- mailbox allow-list -------------------------------------------------

  /** The allow-list read from the `mailboxes` option (default `'[]'`): an array
      value is used as it is; any other value is JSON-decoded from its string
      form, and a failed or falsy decode gives the empty list. */
  function AllowedMailboxes(store: Options.Store): (allowed: Json)
    ensures var setting := Options.Get(store, Options.MailboxesKey, JStr("[]"));
      && ((setting.JArr? || setting.JObj?) ==> allowed == setting)
      && (!(setting.JArr? || setting.JObj?) ==>
            match JsonCodec.Decode(ToPhpString(setting))
            case Some(v) => allowed == if Falsy(v) then JArr([]) else v
            case None => allowed == JArr([]))
  {
    var setting := Options.Get(store, Options.MailboxesKey, JStr("[]"));
    if setting.JArr? || setting.JObj? then setting
    else match JsonCodec.Decode(ToPhpString(setting))
      case Some(v) => if Falsy(v) then JArr([]) else v
      case None => JArr([])
  }

  /** `in_array($id, $allowed)` with the id compared to integer entries; `None`
      where PHP raises a TypeError because the allow-list is not an array. */
  function InArray(id: int, allowed: Json): (r: Option<bool>)
    ensures r.Some? <==> allowed.JArr? || allowed.JObj?
    ensures allowed.JArr? ==> r == Some(JNum(id) in allowed.items)
  {
    match allowed
    case JArr(xs) => Some(JNum(id) in xs)
    case JObj(m) => Some(JNum(id) in m.Values)
    case _ => None
  }

  /** Whether the sidebar may show for mailbox `id`: an empty allow-list admits
      every mailbox, a non-empty one only those it lists. `None` is the
      TypeError case of `InArray`. */
  function MailboxAllowed(store: Options.Store, id: int): (r: Option<bool>)
    ensures Falsy(AllowedMailboxes(store)) ==> r == Some(true)
    ensures !Falsy(AllowedMailboxes(store)) ==> r == InArray(id, AllowedMailboxes(store))
  {
    var allowed := AllowedMailboxes(store);
    if Falsy(allowed) then Some(true) else InArray(id, allowed)
  }

  /** Without a `mailboxes` option the default `'[]'` admits every mailbox. */
  lemma AllowListDefault(store: Options.Store, id: int)
    requires Options.MailboxesKey !in store
    ensures AllowedMailboxes(store) == JArr([])
    ensures MailboxAllowed(store, id) == Some(true)
  {
    JsonCodec.DecodeEncodeIntList([]);
    assert JsonCodec.EncodeIntList([]) == "[]";
  }

  /** An allow-list stored as `json_encode` of integer ids reads back as those
      ids, and admits exactly the listed mailboxes (all of them when empty). */
  lemma AllowListOfStoredIds(store: Options.Store, ids: seq<int>, id: int)
    requires Options.MailboxesKey in store
    requires store[Options.MailboxesKey] == JStr(JsonCodec.EncodeIntList(ids))
    ensures AllowedMailboxes(store) == JArr(IntsToJson(ids))
    ensures MailboxAllowed(store, id) == Some(ids == [] || id in ids)
  {
    JsonCodec.DecodeEncodeIntList(ids);
    InIntsToJson(ids, id);
  }

  /** The allow-list `[3,7]` hides the sidebar for mailbox 5 and shows it for 7. */
  lemma AllowListExample(store: Options.Store)
    requires Options.MailboxesKey in store && store[Options.MailboxesKey] == JStr("[3,7]")
    ensures MailboxAllowed(store, 5) == Some(false)
    ensures MailboxAllowed(store, 7) == Some(true)
  {
    assert JsonCodec.EncodeIntList([3, 7]) == "[3,7]";
    AllowListOfStoredIds(store, [3, 7], 5);
    AllowListOfStoredIds(store, [3, 7], 7);
  }

  // ----- dashboard link -----------------------------------------------------

  const DetailsPrefix := "https://dash.qonversion.io/customers/details/"
  const SearchPrefix := "https://dash.qonversion.io/customers?project="

  /** The link to the dashboard: the customer's own page when the lookup gave a
      customer with a user id, the project's customer search otherwise. */
  function DashboardUrl(customer: Option<Customer>, projectId: Json, environment: Json): (url: string)
    ensures customer.Some? && customer.value.userId != JNull ==>
      url == DetailsPrefix + ToPhpString(customer.value.userId) + "?project=" + ToPhpString(projectId)
             + "&page=1&environment=" + ToPhpString(environment)
    ensures !(customer.Some? && customer.value.userId != JNull) ==>
      url == SearchPrefix + ToPhpString(projectId) + "&environment=" + ToPhpString(environment)
  {
    if customer.Some? && customer.value.userId != JNull then
      DetailsPrefix + ToPhpString(customer.value.userId) + "?project=" + ToPhpString(projectId)
      + "&page=1&environment=" + ToPhpString(environment)
    else
      SearchPrefix + ToPhpString(projectId) + "&environment=" + ToPhpString(environment)
  }

  /** The two link forms cannot be confused: the link starts with the
      customer-details path exactly when a customer was found. */
  lemma DashboardUrlKind(customer: Option<Customer>, projectId: Json, environment: Json)
    ensures var url := DashboardUrl(customer, projectId, environment);
      (|DetailsPrefix| <= |url| && url[..|DetailsPrefix|] == DetailsPrefix)
      <==> (customer.Some? && customer.value.userId != JNull)
  {
    var url := DashboardUrl(customer, projectId, environment);
    var n := |"https://dash.qonversion.io/customers"|;
    if customer.Some? && customer.value.userId != JNull {
      assert url[..|DetailsPrefix|] == DetailsPrefix;
    } else {
      assert url[n] == SearchPrefix[n] == '?';
      assert DetailsPrefix[n] == '/';
    }
  }

  // ----- the conversation.after_prev_convs hook -----------------------------

  /** What the hook does: nothing, render the sidebar with this customer data
      and link, or fail with the TypeError of `InArray`. */
  datatype HookResult = Skipped | Faulted | Rendered(customerData: Option<Customer>, url: string)

  /** The sidebar hook for mailbox `mailboxId`, given the store and the outcome
      of the API lookup (an exception is caught and means no customer data). */
  function AfterPrevConvs(store: Options.Store, mailboxId: int, lookup: Outcome<Option<Customer>>)
    : (r: HookResult)
    ensures !CredentialsConfigured(store) ==> r == Skipped
    ensures r.Rendered? <==> CredentialsConfigured(store) && MailboxAllowed(store, mailboxId) == Some(true)
    ensures r.Faulted? <==> CredentialsConfigured(store) && MailboxAllowed(store, mailboxId).None?
    ensures r.Rendered? ==> r.customerData == (if lookup.Returned? then lookup.value else None)
    ensures r.Rendered? ==> r.url == DashboardUrl(r.customerData,
      Options.Get(store, Options.ProjectIdKey, JNull), Options.Get(store, Options.EnvironmentKey, JStr("0")))
  {
    if !CredentialsConfigured(store) then Skipped
    else match MailboxAllowed(store, mailboxId)
      case None => Faulted
      case Some(false) => Skipped
      case Some(true) =>
        var customerData := if lookup.Returned? then lookup.value else None;
        var environment := Options.Get(store, Options.EnvironmentKey, JStr("0"));
        var projectId := Options.Get(store, Options.ProjectIdKey, JNull);
        Rendered(customerData, DashboardUrl(customerData, projectId, environment))
  }

  /** A key or id that is unset, "" or "0" hides the sidebar on every mailbox. */
  lemma CredentialGate(store: Options.Store, mailboxId: int, lookup: Outcome<Option<Customer>>)
    requires Options.Get(store, Options.ProjectKeyKey, JNull) in {JNull, JStr(""), JStr("0")}
          || Options.Get(store, Options.ProjectIdKey, JNull) in {JNull, JStr(""), JStr("0")}
    ensures AfterPrevConvs(store, mailboxId, lookup) == Skipped
  {
  }

  /** When the API service raises, the sidebar still renders, without customer
      data and with the search link; an unset environment reads as "0". */
  lemma RenderAfterLookupFailure(store: Options.Store, mailboxId: int)
    requires CredentialsConfigured(store) && MailboxAllowed(store, mailboxId) == Some(true)
    ensures var pid := ToPhpString(Options.Get(store, Options.ProjectIdKey, JNull));
      var env := if Options.EnvironmentKey in store then ToPhpString(store[Options.EnvironmentKey]) else "0";
      AfterPrevConvs(store, mailboxId, Raised) == Rendered(None, SearchPrefix + pid + "&environment=" + env)
  {
  }

  // ----- settings-section filters -------------------------------------------

  const Section := "qonversion"

  /** The default each owned option is read with. */
  function DefaultOf(key: string): Json {
    if key == Options.EnvironmentKey then JStr("0")
    else if key == Options.MailboxesKey then JStr("[]")
    else JStr("")
  }

  /** The four owned options as the settings form shows them. */
  function OwnSettings(store: Options.Store): (r: Json)
    ensures r.JObj? && r.fields.Keys == Options.OwnKeys
    ensures forall k :: k in Options.OwnKeys ==> r.fields[k] == Options.Get(store, k, DefaultOf(k))
  {
    JObj(map[
      Options.ProjectKeyKey := Options.Get(store, Options.ProjectKeyKey, JStr("")),
      Options.ProjectIdKey := Options.Get(store, Options.ProjectIdKey, JStr("")),
      Options.EnvironmentKey := Options.Get(store, Options.EnvironmentKey, JStr("0")),
      Options.MailboxesKey := Options.Get(store, Options.MailboxesKey, JStr("[]"))])
  }

  /** `settings.section_settings`: other sections pass through unchanged. */
  function SectionSettings(settings: Json, section: string, store: Options.Store): (r: Json)
    ensures section != Section ==> r == settings
    ensures section == Section ==> r == OwnSettings(store)
  {
    if section != Section then settings else OwnSettings(store)
  }

  /** The validator rule names for the two required fields. */
  const ProjectKeyRule := "settings.qonversionintegration.project_key"
  const ProjectIdRule := "settings.qonversionintegration.project_id"

  /** `settings.section_params`: other sections pass through unchanged; for
      this one, the owned settings and the rule that key and id are required. */
  function SectionParams(params: Json, section: string, store: Options.Store): (r: Json)
    ensures section != Section ==> r == params
    ensures section == Section ==>
      && Path(r, ["settings"]) == Some(SectionSettings(JNull, Section, store))
      && Path(r, ["validator_rules", ProjectKeyRule]) == Some(JStr("required"))
      && Path(r, ["validator_rules", ProjectIdRule]) == Some(JStr("required"))
      && Path(r, ["template_vars"]) == Some(JArr([]))
    ensures section == Section ==>
      && r.JObj? && r.fields.Keys == {"template_vars", "validator_rules", "settings"}
      && r.fields["validator_rules"].JObj?
      && r.fields["validator_rules"].fields.Keys == {ProjectKeyRule, ProjectIdRule}
  {
    if section != Section then params
    else
      assert ProjectKeyRule[39] != ProjectIdRule[39];
      var fields := map[
        "template_vars" := JArr([]),
        "validator_rules" := JObj(map[ProjectKeyRule := JStr("required"), ProjectIdRule := JStr("required")]),
        "settings" := OwnSettings(store)];
      PathOfField(fields, "settings");
      PathOfField(fields, "template_vars");
      PathOfNestedField(fields, "validator_rules", ProjectKeyRule);
      PathOfNestedField(fields, "validator_rules", ProjectIdRule);
      JObj(fields)
  }

  /** `settings.view`: other sections pass through unchanged. */
  function SectionView(view: Json, section: string): (r: Json)
    ensures section != Section ==> r == view
    ensures section == Section ==> r == JStr("qonversionintegration::settings")
  {
    if section != Section then view else JStr("qonversionintegration::settings")
  }

  /** `settings.before_save`: the request is returned unchanged for every
      section (for this one it is only logged). */
  function BeforeSave<R>(request: R, section: string, settings: Json): (r: R)
    ensures r == request
  {
    request
  }
}
