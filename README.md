# Qonversion integration for FreeScout — Dafny model

This project models the decision logic of the FreeScout module that shows a
customer's Qonversion subscription in the conversation sidebar. It follows
PHP 8.2 semantics: `in_array` and `count` on a scalar raise a TypeError, and
`strtolower`/`ucfirst` act on ASCII letters only. It covers:

- **Customer lookup** (`Services/QonversionApiService.php`): `formatPlatform`
  classifies a raw store/platform string by priority-ordered,
  case-insensitive substring rules; `parseSubscriptionDetails` maps each
  entitlement to a display record with field fallbacks and optional keys;
  `parseCustomerData` derives the subscription status (`None`, `Active`,
  `Expired`), the details list and the platform; `getCustomerData` resolves
  the identity and fetches entitlements only when a `user_id` was found,
  turning every exception into "no data".
- **Sidebar hook and settings filters**
  (`Providers/QonversionIntegrationServiceProvider.php`): the credential
  gate, the decoding of the mailbox allow-list and the membership test, the
  choice between the customer-details and customer-search dashboard links,
  and the four section filters that pass other sections through.
- **Settings save** (`Http/Controllers/SettingsController.php`): a
  conditional update of the option store. It writes three keys only when
  submitted, and always writes the mailbox list as a JSON array of `intval`'d
  ids. Reading that list back with the sidebar's decoder gives the same ids.

Modules, one file each: `Wrappers` (Option), `Text` (ASCII `strtolower`,
`ucfirst`, `strpos`, integer printing, `intval` on strings), `PhpJson`
(decoded JSON values, nested `isset`, PHP truthiness, string conversion,
`intval`), `JsonCodec` (`json_decode` for RFC 8259 JSON with integer
numbers; `json_encode` of an integer list), `Options` (the option store as a
map and the four option names), then `QonversionApiService`,
`QonversionIntegrationServiceProvider` and `SettingsController` for the
three source files.

HTTP requests are inputs. A response is `Ok(body)`, `NotFound` or
`RequestFailed`, and a body that is not JSON is `JNull`, the value
`json_decode` gives for it. Date formatting is the parameter `formatDate`.
The sidebar hook receives the outcome of the API lookup. Instead of echoing
a view, it returns `Rendered(customerData, url)`.

## Model

| member | source | states |
|---|---|---|
| `QonversionApiService.FormatPlatform` | Services/QonversionApiService.php:126-140 | the result, when not null, is one of "iOS", "Android", "Web" or a string as long as the input; `FormatPlatformRules` and `FormatPlatformFallback` state the rules themselves |
| `QonversionApiService.FormatPlatformRules` | Services/QonversionApiService.php:126-140 | the rule order: "iOS" iff an iOS token occurs; "Android" iff no iOS token and an Android token; "Web" iff neither earlier group and `stripe`/`web`; null iff none of those and `prod` |
| `QonversionApiService.FormatPlatformIosAnywhere` | Services/QonversionApiService.php:128-130 | `ios`, `appstore` or `app_store` in any letter case, at any position and with any surrounding text, gives "iOS" (e.g. "ios_production") |
| `QonversionApiService.FormatPlatformFallback` | Services/QonversionApiService.php:139 | with no rule matching, the result has the input's length, its first character upper-cased and the rest lower-cased; "" gives "" |
| `QonversionApiService.DetailOf` | Services/QonversionApiService.php:146-177 | `product_id` is `product.product_id`, else `id`, else "Unknown", and is never null; `id` defaults to "", `active` to false; `source` is the classification of `source ?? ""`; `started_at`/`expires_at` and their formatted forms are present iff the raw field is set; `will_renew` is present iff `product.subscription.renew_state` is set, and is true iff it equals "will_renew" |
| `QonversionApiService.DetailRecord` | Services/QonversionApiService.php:146-177 | the record filled key by key (optional keys added only when their field is set) is the record `DetailOf` describes |
| `QonversionApiService.ParseSubscriptionDetails` | Services/QonversionApiService.php:142-180 | exactly one record per entitlement, in input order, the i-th being the record of the i-th entitlement |
| `QonversionApiService.IsActive` | Services/QonversionApiService.php:110-112 | no ensures of its own: an entitlement is active exactly when `active` is set and is the boolean `true`; `ActiveOnly` and `SummaryRules` state what follows from it |
| `QonversionApiService.EntitlementsOf` | Services/QonversionApiService.php:103-104 | a falsy response carries no entitlements; a truthy response whose `data` is a list yields exactly that list, and any entitlements come from it |
| `QonversionApiService.SummaryOf` | Services/QonversionApiService.php:94-124 | no ensures of its own; `SummaryRules` states its status partition, where the details come from and the platform from the first entitlement |
| `QonversionApiService.ActiveOnly` | Services/QonversionApiService.php:110-112 | the filter keeps exactly the entitlements whose `active` is the boolean `true` |
| `QonversionApiService.ActiveOnlyAppend` | Services/QonversionApiService.php:110-112 | the filter preserves the original order (it distributes over concatenation) |
| `QonversionApiService.ActiveOnlyAllActive` | Services/QonversionApiService.php:110-112 | a list that is all active is kept whole |
| `QonversionApiService.ActiveOnlyNonEmpty` | Services/QonversionApiService.php:110-114 | `count($activeEntitlements) > 0` exactly when some entitlement is active |
| `QonversionApiService.ActiveDetailsAreActive` | Services/QonversionApiService.php:110-116 | every record built from the filtered list shows `active` as `true` |
| `QonversionApiService.SummaryRules` | Services/QonversionApiService.php:94-124 | no payload, no `data` or empty `data` gives platform null, status "None", no details; status is Active iff some entitlement is active, Expired iff there are entitlements and none is active; Active details come from exactly the active entitlements in order, Expired details from all; details are empty iff status is "None"; every Active detail has `active` true; the platform is the classification of the first entitlement's `source`, null when unset |
| `QonversionApiService.ParseCustomerData` | Services/QonversionApiService.php:94-124 | the step-by-step filling of the result yields the summary described by `SummaryRules` |
| `QonversionApiService.GetIdentity` | Services/QonversionApiService.php:63-76 | a 404 gives a null identity, any other request failure raises, a response gives its decoded body |
| `QonversionApiService.FetchEntitlements` | Services/QonversionApiService.php:81-89 | any failure gives the falsy `[]`, which carries no entitlements |
| `QonversionApiService.FetchFailureMeansNoSubscription` | Services/QonversionApiService.php:86-88 | a failed entitlements request ends as status "None" with no platform and no details |
| `QonversionApiService.GetCustomerData` | Services/QonversionApiService.php:33-61 | entitlements are requested iff the identity is a truthy value with `user_id` set, and for that user id; otherwise, and on any exception, the result is null; a result is the summary of the fetched entitlements tagged with a non-null `qonversion_user_id` |
| `QonversionIntegrationServiceProvider.AfterPrevConvs` | Providers/QonversionIntegrationServiceProvider.php:60-113 | nothing is rendered without credentials; the sidebar renders iff credentials are set and the mailbox is allowed; a non-array allow-list faults; a lookup exception renders with null customer data; the link is the dashboard link for the project id and the environment (default "0") |
| `QonversionIntegrationServiceProvider.CredentialsConfigured` | Providers/QonversionIntegrationServiceProvider.php:62-66 | no ensures of its own: both the project key and the project id are truthy; `CredentialGate` states that the sidebar is skipped otherwise |
| `QonversionIntegrationServiceProvider.CredentialGate` | Providers/QonversionIntegrationServiceProvider.php:62-67 | an unset, "" or "0" project key or project id skips the sidebar for every mailbox and lookup outcome |
| `QonversionIntegrationServiceProvider.AllowedMailboxes` | Providers/QonversionIntegrationServiceProvider.php:70-71 | an array setting is used as is; any other setting is JSON-decoded from its string form, and a failed or falsy decode becomes `[]` |
| `QonversionIntegrationServiceProvider.AllowListDefault` | Providers/QonversionIntegrationServiceProvider.php:70-71 | without a stored allow-list the default `'[]'` decodes to the empty list and admits every mailbox |
| `QonversionIntegrationServiceProvider.InArray` | Providers/QonversionIntegrationServiceProvider.php:72 | membership is defined exactly for arrays; for a list it is membership of the id |
| `QonversionIntegrationServiceProvider.MailboxAllowed` | Providers/QonversionIntegrationServiceProvider.php:72-74 | an empty allow-list admits every mailbox; a non-empty one admits a mailbox iff its id is listed |
| `QonversionIntegrationServiceProvider.AllowListOfStoredIds` | Providers/QonversionIntegrationServiceProvider.php:70-74 | a stored `json_encode` of ids decodes to those ids and admits exactly the listed mailboxes, or all of them when the list is empty |
| `QonversionIntegrationServiceProvider.AllowListExample` | Providers/QonversionIntegrationServiceProvider.php:72-74 | the stored list `[3,7]` blocks mailbox 5 and allows mailbox 7 |
| `QonversionIntegrationServiceProvider.DashboardUrl` | Providers/QonversionIntegrationServiceProvider.php:87-105 | with a customer user id the link is `https://dash.qonversion.io/customers/details/{uid}?project={pid}&page=1&environment={env}`, otherwise `https://dash.qonversion.io/customers?project={pid}&environment={env}` |
| `QonversionIntegrationServiceProvider.DashboardUrlKind` | Providers/QonversionIntegrationServiceProvider.php:90-105 | the link begins with the customer-details path exactly when a customer with a user id was found |
| `QonversionIntegrationServiceProvider.RenderAfterLookupFailure` | Providers/QonversionIntegrationServiceProvider.php:79-111 | when the API service raises, the sidebar still renders, with null customer data and the search link; an unset environment appears as "0" |
| `QonversionIntegrationServiceProvider.OwnSettings` | Providers/QonversionIntegrationServiceProvider.php:126-131 | exactly the four owned options, each the stored value or its default ("", "", "0", "[]") |
| `QonversionIntegrationServiceProvider.SectionSettings` | Providers/QonversionIntegrationServiceProvider.php:121-132 | any section other than 'qonversion' gets its settings back unchanged; 'qonversion' gets the owned options |
| `QonversionIntegrationServiceProvider.SectionParams` | Providers/QonversionIntegrationServiceProvider.php:134-154 | other sections pass through unchanged; 'qonversion' gets a fresh array of exactly the keys `template_vars` (empty), `validator_rules` (exactly the project key and id rules, each "required") and `settings` (the same as the section-settings filter); the caller's params are discarded |
| `QonversionIntegrationServiceProvider.SectionView` | Providers/QonversionIntegrationServiceProvider.php:156-161 | other sections pass through unchanged; 'qonversion' gets the module's settings view |
| `QonversionIntegrationServiceProvider.BeforeSave` | Providers/QonversionIntegrationServiceProvider.php:164-174 | the request is returned unchanged for every section |
| `SettingsController.SettingsStore.WriteIfSet` | Http/Controllers/SettingsController.php:14-24 | one guarded write: the option holds the submitted value when it is set and not null, is untouched otherwise, and no other option changes |
| `SettingsController.SettingsStore.Save` | Http/Controllers/SettingsController.php:10-33 | project key, project id and environment are each written iff submitted and not null, else left as they were; mailboxes is always written, as the JSON list of the submitted ids (`"[]"` when absent); every other option is unchanged; the sidebar then reads back exactly those ids |
| `SettingsController.SubmittedMailboxIds` | Http/Controllers/SettingsController.php:27-28 | `intval` of each submitted item, same length and order; none when the field is absent |
| `SettingsController.SubmittedDecimalStrings` | Http/Controllers/SettingsController.php:28 | items that are decimal strings of in-range integers become exactly those integers |
| `SettingsController.SubmittedExample` | Http/Controllers/SettingsController.php:28 | the submitted `["2","5"]` is stored as `[2,5]` |
| `SettingsController.SavedIdsReadBack` | Http/Controllers/SettingsController.php:28 | round trip: after storing the encoded ids, the sidebar's decode (provider line 71) yields those ids, and admits exactly the listed mailboxes |
| `JsonCodec.Decode` | Providers/QonversionIntegrationServiceProvider.php:71 | no ensures of its own: `json_decode` with only whitespace allowed after the value; `DecodeEncodeIntList`, `AllowListDefault` and `AllowListExample` state what it gives for stored lists |
| `JsonCodec.EncodeIntList` | Http/Controllers/SettingsController.php:28 | the text is bracketed, and the empty list is `[]`; `DecodeEncodeIntList` is its round trip |
| `JsonCodec.DecodeEncodeIntList` | Providers/QonversionIntegrationServiceProvider.php:71 | `json_decode` of `json_encode` of an integer list gives back that list, in order |
| `PhpJson.Path` | Services/QonversionApiService.php:148-173 | `isset($a[k1][k2]...)` with the value it guards: a found value is never null; with `GetOr` it is `??` (also Services/QonversionApiService.php:39,103-105,111 and Http/Controllers/SettingsController.php:14-27) |
| `PhpJson.Falsy` | Providers/QonversionIntegrationServiceProvider.php:65-72 | no ensures of its own: PHP's false-y values (null, false, 0, "", "0", empty array), as `!$x`, `empty` and `?:` use them (also Services/QonversionApiService.php:39,103); `CredentialGate`, `AllowListDefault` and `FetchEntitlements` state what follows from it |
| `PhpJson.ToPhpString` | Providers/QonversionIntegrationServiceProvider.php:92-104 | no ensures of its own: PHP's string conversion as `sprintf('%s')` and `strtolower` (Services/QonversionApiService.php:128) apply it; `DashboardUrl` states the links built with it |
| `Text.Lower` | Services/QonversionApiService.php:128 | `strtolower`: same length, each character lower-cased in ASCII; `LowerConcat` shows it distributes over concatenation |
| `Text.Ucfirst` | Services/QonversionApiService.php:139 | `ucfirst`: same length, the first character upper-cased, the rest kept |
| `Options.Get` | Providers/QonversionIntegrationServiceProvider.php:62-63 | `Option::get($key, $default)`: the stored value when the key is set, the default otherwise (also lines 70, 88 and 127-130) |
| `Text.IntvalString` | Http/Controllers/SettingsController.php:28 | `intval` of a string lies within the 64-bit bounds, and the empty string gives 0; `IntvalOfIntToString` states the exact value and the saturation |
| `PhpJson.Intval` | Http/Controllers/SettingsController.php:28 | `intval` of a string lies within the 64-bit bounds; null, `false` and `""` give 0 |
| `Text.ContainsIff` | Services/QonversionApiService.php:128-136 | `strpos($s, $t) !== false` holds exactly when `t` occurs in `s` at some position |
| `Text.IntvalOfIntToString` | Http/Controllers/SettingsController.php:28 | `intval` of the decimal string of an integer is that integer when it fits in 64 bits, `PHP_INT_MAX` above the range and `PHP_INT_MIN` below it |

## Left out

- HTTP I/O: the Guzzle client, its headers, base URL and timeout, and the `get` calls. Each response is an input.
- `rawurlencode` of the email and the email itself: the identity response is given directly, so the email does not appear. The hook also passes `customer_email` to the sidebar view, which `Rendered` leaves out; the view reads only the customer data and the link, so no rendered output depends on it.
- Carbon date formatting (`createFromTimestamp(...)->format('M d, Y')`): host-timezone dependent; it is the parameter `formatDate`.
- Logging, session flash, redirect, `view(...)->render()` and `echo`: the hook returns what it would render instead.
- Framework registration: `boot`, `registerConfig`, `registerViews`, `registerRoutes`, the stylesheets filter and the `settings.sections` filter, which only registers a menu entry.
- Http/routes.php and the Blade views: routing, authorisation middleware and templating.
- User-record and user-property parsing: this version of the service fetches only the identity and the entitlements. The platform therefore comes from the first entitlement only, and the model follows that.
- `QonversionIntegrationServiceProvider.InArray`: compares the mailbox id with integer entries only; PHP's loose comparison (a numeric string "7", or `true`, equal to 7) is not modelled.
- `QonversionApiService.EntitlementsOf`: a `data` value that is not a list counts as no entitlements; PHP would count an associative array, and raise a TypeError for a scalar.
- `PhpJson.ToPhpString`: an array becomes "Array" as in `sprintf`; where `strtolower` would raise a TypeError on an array `source`, the model classifies "Array".
- `JsonCodec.Decode`: numbers with a fraction or an exponent and `\u` escapes are not modelled; such text decodes as a failure (an empty allow-list), where PHP would give floats or strings. JSON values hold no floats.
- `JsonCodec.Decode`: the nesting-depth limit is not modelled; beyond depth 512 PHP fails, giving an empty allow-list, where the model decodes the value.
- `Text.IntvalString`: a string in exponent or decimal form (`"1e3"`) is read up to its first non-digit, where PHP reads it as a float first.
- `SettingsController.SettingsStore.Save`: requires that a submitted `mailboxes` value is a list; PHP raises a TypeError otherwise, and `json_encode` of a non-sequential array producing an object is not modelled.
- Integer width: decoded integers are unbounded; only `intval` of strings saturates at the 64-bit bounds.
