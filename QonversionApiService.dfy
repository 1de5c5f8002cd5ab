/** The customer lookup of Services/QonversionApiService.php: platform
    classification, the mapping of entitlements to display details, the
    customer summary, and the identity-then-entitlements lookup with the
    HTTP responses given as inputs. */
module QonversionApiService {
  import opened Wrappers
  import opened PhpJson
  import Text

  // ----- formatPlatform -----------------------------------------------------

  predicate IosToken(p: string) {
    Text.Contains(p, "ios") || Text.Contains(p, "appstore") || Text.Contains(p, "app_store")
  }

  predicate AndroidToken(p: string) {
    Text.Contains(p, "android") || Text.Contains(p, "playstore") || Text.Contains(p, "play_store")
  }

  predicate WebToken(p: string) {
    Text.Contains(p, "stripe") || Text.Contains(p, "web")
  }

  predicate ProdToken(p: string) {
    Text.Contains(p, "prod")
  }

  /** A display name for a raw platform or store string, from the first of
      these case-insensitive substring rules that matches: an iOS store token,
      an Android store token, a web token, an environment token ("prod", which
      is not a platform: `None`); otherwise the lower-cased input with its
      first letter capitalised. */
  function FormatPlatform(platform: string): (r: Option<string>)
    ensures r.Some? ==> r.value in {"iOS", "Android", "Web"} || |r.value| == |platform|
  {
    var p := Text.Lower(platform);
    if IosToken(p) then Some("iOS")
    else if AndroidToken(p) then Some("Android")
    else if WebToken(p) then Some("Web")
    else if ProdToken(p) then None
    else Some(Text.Ucfirst(p))
  }

  /** Capitalising a lower-cased string tells it apart from every other
      capitalised lower-case word. */
  lemma UcfirstOfLowerDiffers(s: string, w: string)
    requires forall i :: 0 <= i < |w| ==> 'a' <= w[i] <= 'z'
    requires Text.Lower(s) != w
    ensures Text.Ucfirst(Text.Lower(s)) != Text.Ucfirst(w)
  {
    var p := Text.Lower(s);
    if |p| == |w| && |w| > 0 && p[1..] == w[1..] {
      assert p[0] != w[0] by {
        assert forall i :: 1 <= i < |w| ==> p[i] == p[1..][i - 1] && w[i] == w[1..][i - 1];
      }
      assert Text.Ucfirst(p)[0] != Text.Ucfirst(w)[0];
    }
  }

  /** The capitalised fallback never produces one of the rule names. */
  lemma FallbackIsNotARuleName(s: string)
    requires !AndroidToken(Text.Lower(s)) && !WebToken(Text.Lower(s))
    ensures Text.Ucfirst(Text.Lower(s)) != "iOS"
    ensures Text.Ucfirst(Text.Lower(s)) != "Android"
    ensures Text.Ucfirst(Text.Lower(s)) != "Web"
  {
    var p := Text.Lower(s);
    var r := Text.Ucfirst(p);
    assert |p| == 3 ==> r[1] == Text.LowerChar(s[1]) && r[1] != 'O';
    assert Text.Contains("android", "android");
    UcfirstOfLowerDiffers(s, "android");
    assert Text.Contains("web", "web");
    UcfirstOfLowerDiffers(s, "web");
  }

  /** The rule order: each outcome is produced exactly when its rule is the
      first one that matches. */
  lemma FormatPlatformRules(s: string)
    ensures FormatPlatform(s) == Some("iOS") <==> IosToken(Text.Lower(s))
    ensures FormatPlatform(s) == Some("Android") <==>
      !IosToken(Text.Lower(s)) && AndroidToken(Text.Lower(s))
    ensures FormatPlatform(s) == Some("Web") <==>
      !IosToken(Text.Lower(s)) && !AndroidToken(Text.Lower(s)) && WebToken(Text.Lower(s))
    ensures FormatPlatform(s) == None <==>
      !IosToken(Text.Lower(s)) && !AndroidToken(Text.Lower(s)) && !WebToken(Text.Lower(s))
      && ProdToken(Text.Lower(s))
  {
    var p := Text.Lower(s);
    if !IosToken(p) && !AndroidToken(p) && !WebToken(p) && !ProdToken(p) {
      FallbackIsNotARuleName(s);
    }
  }

  /** An iOS store token anywhere, in any letter case, gives "iOS" whatever
      surrounds it (so "ios_production" is iOS, not an environment). */
  lemma FormatPlatformIosAnywhere(prefix: string, token: string, suffix: string)
    requires Text.Lower(token) in {"ios", "appstore", "app_store"}
    ensures FormatPlatform(prefix + token + suffix) == Some("iOS")
  {
    Text.LowerConcat(prefix, token);
    Text.LowerConcat(prefix + token, suffix);
    var p := Text.Lower(prefix + token + suffix);
    var t := Text.Lower(token);
    assert p == Text.Lower(prefix) + t + Text.Lower(suffix);
    assert p[|prefix|..|prefix| + |t|] == t;
    assert Text.OccursAt(p, t, |prefix|);
    Text.ContainsIff(p, t);
  }

  /** With no rule matching, the result keeps the input's length, with the
      first character upper-cased and the rest lower-cased; "" gives "". */
  lemma FormatPlatformFallback(s: string)
    requires var p := Text.Lower(s); !IosToken(p) && !AndroidToken(p) && !WebToken(p) && !ProdToken(p)
    ensures FormatPlatform(s).Some?
    ensures |FormatPlatform(s).value| == |s|
    ensures s != [] ==> FormatPlatform(s).value[0] == Text.UpperChar(Text.LowerChar(s[0]))
    ensures forall i :: 1 <= i < |s| ==> FormatPlatform(s).value[i] == Text.LowerChar(s[i])
    ensures s == [] ==> FormatPlatform(s) == Some("")
  {
  }

  // ----- parseSubscriptionDetails -------------------------------------------

  /** One display record per entitlement. Keys PHP leaves out of the array are `None`. */
  datatype Detail = Detail(
    id: Json,
    active: Json,
    productId: Json,
    source: Option<string>,
    startedAt: Option<Json>,
    startedAtFormatted: Option<string>,
    expiresAt: Option<Json>,
    expiresAtFormatted: Option<string>,
    willRenew: Option<bool>)

  /** The record built for one entitlement `e`; `formatDate` stands for the
      date formatting of a Unix timestamp. */
  function DetailOf(e: Json, formatDate: Json -> string): (d: Detail)
    ensures Path(e, ["product", "product_id"]).Some? ==>
      d.productId == Path(e, ["product", "product_id"]).value
    ensures Path(e, ["product", "product_id"]).None? && Path(e, ["id"]).Some? ==>
      d.productId == Path(e, ["id"]).value
    ensures Path(e, ["product", "product_id"]).None? && Path(e, ["id"]).None? ==>
      d.productId == JStr("Unknown")
    ensures d.productId != JNull
    ensures d.id == Path(e, ["id"]).GetOr(JStr(""))
    ensures d.active == Path(e, ["active"]).GetOr(JBool(false))
    ensures d.source == FormatPlatform(ToPhpString(Path(e, ["source"]).GetOr(JStr(""))))
    ensures Path(e, ["source"]).None? ==> d.source == Some("")
    ensures d.startedAt == Path(e, ["started"])
    ensures d.startedAtFormatted.Some? <==> d.startedAt.Some?
    ensures d.startedAt.Some? ==> d.startedAtFormatted == Some(formatDate(d.startedAt.value))
    ensures d.expiresAt == Path(e, ["expires"])
    ensures d.expiresAtFormatted.Some? <==> d.expiresAt.Some?
    ensures d.expiresAt.Some? ==> d.expiresAtFormatted == Some(formatDate(d.expiresAt.value))
    ensures d.willRenew.Some? <==> Path(e, ["product", "subscription", "renew_state"]).Some?
    ensures d.willRenew == Some(true) <==>
      Path(e, ["product", "subscription", "renew_state"]) == Some(JStr("will_renew"))
  {
    var started := Path(e, ["started"]);
    var expires := Path(e, ["expires"]);
    var renew := Path(e, ["product", "subscription", "renew_state"]);
    Detail(
      id := Path(e, ["id"]).GetOr(JStr("")),
      active := Path(e, ["active"]).GetOr(JBool(false)),
      productId := Path(e, ["product", "product_id"]).GetOr(Path(e, ["id"]).GetOr(JStr("Unknown"))),
      source := FormatPlatform(ToPhpString(Path(e, ["source"]).GetOr(JStr("")))),
      startedAt := started,
      startedAtFormatted := if started.Some? then Some(formatDate(started.value)) else None,
      expiresAt := expires,
      expiresAtFormatted := if expires.Some? then Some(formatDate(expires.value)) else None,
      willRenew := if renew.Some? then Some(renew.value == JStr("will_renew")) else None)
  }

  /** The records of `ents`, one per entitlement, in order. */
  function MapDetails(ents: seq<Json>, formatDate: Json -> string): (ds: seq<Detail>)
    ensures |ds| == |ents|
  {
    seq(|ents|, i requires 0 <= i < |ents| => DetailOf(ents[i], formatDate))
  }

  /** The records of one more entitlement extend the records so far by its own. */
  lemma MapDetailsSnoc(ents: seq<Json>, i: nat, formatDate: Json -> string)
    requires i < |ents|
    ensures MapDetails(ents[..i + 1], formatDate) == MapDetails(ents[..i], formatDate) + [DetailOf(ents[i], formatDate)]
  {
    assert ents[..i + 1][i] == ents[i];
  }

  /** The body of the `foreach` in `parseSubscriptionDetails`: the array built
      for one entitlement, key by key. */
  method DetailRecord(e: Json, formatDate: Json -> string) returns (detail: Detail)
    ensures detail == DetailOf(e, formatDate)
  {
    var productId := JStr("Unknown");
    var nestedId := Path(e, ["product", "product_id"]);
    var ownId := Path(e, ["id"]);
    if nestedId.Some? {
      productId := nestedId.value;
    } else if ownId.Some? {
      productId := ownId.value;
    }
    detail := Detail(
      id := ownId.GetOr(JStr("")),
      active := Path(e, ["active"]).GetOr(JBool(false)),
      productId := productId,
      source := FormatPlatform(ToPhpString(Path(e, ["source"]).GetOr(JStr("")))),
      startedAt := None, startedAtFormatted := None,
      expiresAt := None, expiresAtFormatted := None,
      willRenew := None);
    var started := Path(e, ["started"]);
    if started.Some? {
      detail := detail.(startedAt := started, startedAtFormatted := Some(formatDate(started.value)));
    }
    var expires := Path(e, ["expires"]);
    if expires.Some? {
      detail := detail.(expiresAt := expires, expiresAtFormatted := Some(formatDate(expires.value)));
    }
    var renew := Path(e, ["product", "subscription", "renew_state"]);
    if renew.Some? {
      detail := detail.(willRenew := Some(renew.value == JStr("will_renew")));
    }
  }

  /** Builds the list of display records, appending one per entitlement and
      filling each record key by key. */
  method ParseSubscriptionDetails(entitlements: seq<Json>, formatDate: Json -> string)
    returns (details: seq<Detail>)
    ensures |details| == |entitlements|
    ensures forall i :: 0 <= i < |entitlements| ==> details[i] == DetailOf(entitlements[i], formatDate)
  {
    details := [];
    var i := 0;
    while i < |entitlements|
      invariant 0 <= i <= |entitlements|
      invariant details == MapDetails(entitlements[..i], formatDate)
    {
      var detail := DetailRecord(entitlements[i], formatDate);
      MapDetailsSnoc(entitlements, i, formatDate);
      details := details + [detail];
      i := i + 1;
    }
    assert entitlements[..i] == entitlements;
  }

  // ----- parseCustomerData --------------------------------------------------

  /** `isset($ent['active']) && $ent['active'] === true`: a truthy value that
      is not the boolean `true` does not count. */
  predicate IsActive(e: Json) {
    Path(e, ["active"]) == Some(JBool(true))
  }

  /** `array_filter` keeping the active entitlements, in their original order. */
  function ActiveOnly(ents: seq<Json>): (r: seq<Json>)
    ensures |r| <= |ents|
    ensures forall x :: x in r ==> x in ents && IsActive(x)
    ensures forall x :: x in ents && IsActive(x) ==> x in r
  {
    if ents == [] then []
    else (if IsActive(ents[0]) then [ents[0]] else []) + ActiveOnly(ents[1..])
  }

  /** Filtering commutes with concatenation: the kept entitlements keep their
      relative order. */
  lemma {:induction false} ActiveOnlyAppend(a: seq<Json>, b: seq<Json>)
    ensures ActiveOnly(a + b) == ActiveOnly(a) + ActiveOnly(b)
  {
    if a != [] {
      assert (a + b)[1..] == a[1..] + b;
      ActiveOnlyAppend(a[1..], b);
    } else {
      assert a + b == b;
    }
  }

  /** Filtering a list whose entries are all active keeps all of it. */
  lemma {:induction false} ActiveOnlyAllActive(ents: seq<Json>)
    requires forall i :: 0 <= i < |ents| ==> IsActive(ents[i])
    ensures ActiveOnly(ents) == ents
  {
    if ents != [] {
      ActiveOnlyAllActive(ents[1..]);
    }
  }

  /** The entitlement list of a payload: its `data` list when the payload is
      truthy and `data` is set; no entitlements otherwise. */
  function EntitlementsOf(payload: Json): (ents: seq<Json>)
    ensures Falsy(payload) ==> ents == []
    ensures ents != [] ==> Path(payload, ["data"]) == Some(JArr(ents))
    ensures !Falsy(payload) && Path(payload, ["data"]).Some? && Path(payload, ["data"]).value.JArr? ==>
      ents == Path(payload, ["data"]).value.items
  {
    if Falsy(payload) then []
    else match Path(payload, ["data"])
      case Some(JArr(xs)) => xs
      case _ => []
  }

  datatype Status = NotSubscribed | Active | Expired {
    /** The value of `subscription_status`. */
    function Label(): string {
      match this
      case NotSubscribed => "None"
      case Active => "Active"
      case Expired => "Expired"
    }
  }

  datatype Summary = Summary(platform: Option<string>, status: Status, details: seq<Detail>)

  /** The customer summary of an entitlements payload. */
  function SummaryOf(payload: Json, formatDate: Json -> string): Summary {
    var ents := EntitlementsOf(payload);
    if ents == [] then Summary(None, NotSubscribed, [])
    else
      var platform := match Path(ents[0], ["source"])
        case Some(src) => FormatPlatform(ToPhpString(src))
        case None => None;
      var active := ActiveOnly(ents);
      if active != [] then Summary(platform, Active, MapDetails(active, formatDate))
      else Summary(platform, Expired, MapDetails(ents, formatDate))
  }

  /** Some entitlement is active exactly when the filtered list is non-empty. */
  lemma ActiveOnlyNonEmpty(ents: seq<Json>)
    ensures ActiveOnly(ents) != [] <==> exists i :: 0 <= i < |ents| && IsActive(ents[i])
  {
    var active := ActiveOnly(ents);
    if i :| 0 <= i < |ents| && IsActive(ents[i]) {
      assert ents[i] in ents;
    }
    if active != [] {
      assert active[0] in active;
      assert exists i :: 0 <= i < |ents| && ents[i] == active[0];
    }
  }

  /** Every record built from the filtered list shows `active` as `true`. */
  lemma ActiveDetailsAreActive(ents: seq<Json>, formatDate: Json -> string)
    ensures forall d :: d in MapDetails(ActiveOnly(ents), formatDate) ==> d.active == JBool(true)
  {
    var active := ActiveOnly(ents);
    var ds := MapDetails(active, formatDate);
    forall d | d in ds
      ensures d.active == JBool(true)
    {
      var k :| 0 <= k < |ds| && ds[k] == d;
      assert active[k] in active;
    }
  }

  /** What the summary promises: the status partition, which entitlements feed
      the details, and where the platform comes from. */
  lemma SummaryRules(payload: Json, formatDate: Json -> string)
    ensures var ents := EntitlementsOf(payload); var s := SummaryOf(payload, formatDate);
      && (ents == [] ==> s == Summary(None, NotSubscribed, []))
      && (s.status == Active <==> exists i :: 0 <= i < |ents| && IsActive(ents[i]))
      && (s.status == Expired <==> ents != [] && forall i :: 0 <= i < |ents| ==> !IsActive(ents[i]))
      && (s.status == NotSubscribed <==> ents == [])
      && (s.status == Active ==> s.details == MapDetails(ActiveOnly(ents), formatDate))
      && (s.status == Expired ==> s.details == MapDetails(ents, formatDate))
      && (s.details == [] <==> s.status == NotSubscribed)
      && (s.status == Active ==> forall d :: d in s.details ==> d.active == JBool(true))
      && (ents != [] && Path(ents[0], ["source"]).None? ==> s.platform == None)
      && (ents != [] && Path(ents[0], ["source"]).Some? ==>
            s.platform == FormatPlatform(ToPhpString(Path(ents[0], ["source"]).value)))
  {
    var ents := EntitlementsOf(payload);
    ActiveOnlyNonEmpty(ents);
    ActiveDetailsAreActive(ents, formatDate);
  }

  /** Fills the summary step by step: defaults first, then the platform of the
      first entitlement, then status and details. */
  method ParseCustomerData(payload: Json, formatDate: Json -> string) returns (data: Summary)
    ensures data == SummaryOf(payload, formatDate)
  {
    data := Summary(None, NotSubscribed, []);
    var ents := EntitlementsOf(payload);
    if |ents| > 0 {
      var latest := ents[0];
      var source := Path(latest, ["source"]);
      if source.Some? {
        data := data.(platform := FormatPlatform(ToPhpString(source.value)));
      }
      var active := ActiveOnly(ents);
      if |active| > 0 {
        var details := ParseSubscriptionDetails(active, formatDate);
        data := data.(status := Active, details := details);
      } else {
        var details := ParseSubscriptionDetails(ents, formatDate);
        data := data.(status := Expired, details := details);
      }
    }
  }

  // ----- getCustomerData, getIdentity, fetchEntitlements --------------------

  /** The result of one HTTP request: a decoded body (`JNull` when the body is
      not JSON), a 404, or any other request failure. */
  datatype Response = Ok(body: Json) | NotFound | RequestFailed

  /** A call that either returns a value or raises an exception. */
  datatype Outcome<T> = Returned(value: T) | Raised

  /** `getIdentity`: a 404 means "no identity" (null); any other request
      failure propagates as an exception. */
  function GetIdentity(response: Response): (o: Outcome<Json>)
    ensures o.Raised? <==> response.RequestFailed?
    ensures response.NotFound? ==> o == Returned(JNull)
    ensures response.Ok? ==> o == Returned(response.body)
  {
    match response
    case Ok(body) => Returned(body)
    case NotFound => Returned(JNull)
    case RequestFailed => Raised
  }

  /** `fetchEntitlements`: the decoded body, or an empty list when the request
      fails in any way; a failure therefore yields no entitlements. */
  function FetchEntitlements(response: Response): (payload: Json)
    ensures response.Ok? ==> payload == response.body
    ensures !response.Ok? ==> EntitlementsOf(payload) == [] && Falsy(payload)
  {
    match response
    case Ok(body) => body
    case _ => JArr([])
  }

  /** The summary tagged with the Qonversion user id (`qonversion_user_id`). */
  datatype Customer = Customer(summary: Summary, userId: Json)

  /** `getCustomerData`: resolves the identity, and only when it carries a
      `user_id` fetches that user's entitlements and summarises them. Every
      exception becomes `None`. `fetchedFor` is the user id whose entitlements
      were requested, `None` when the entitlements endpoint was never called. */
  method GetCustomerData(identity: Response, entitlements: Response, formatDate: Json -> string)
    returns (customer: Option<Customer>, fetchedFor: Option<Json>)
    ensures fetchedFor.Some? <==>
      identity.Ok? && !Falsy(identity.body) && Path(identity.body, ["user_id"]).Some?
    ensures fetchedFor.Some? ==> fetchedFor == Path(identity.body, ["user_id"])
    ensures fetchedFor.None? ==> customer == None
    ensures fetchedFor.Some? ==>
      customer == Some(Customer(SummaryOf(FetchEntitlements(entitlements), formatDate), fetchedFor.value))
    ensures customer.Some? ==> customer.value.userId != JNull
  {
    customer, fetchedFor := None, None;
    var found := GetIdentity(identity);
    if found.Raised? {
      // the exception is caught and logged
      return;
    }
    var ident := found.value;
    var userId := Path(ident, ["user_id"]);
    if Falsy(ident) || userId.None? {
      return;
    }
    fetchedFor := userId;
    var payload := FetchEntitlements(entitlements);
    var data := ParseCustomerData(payload, formatDate);
    customer := Some(Customer(data, userId.value));
  }

  /** A failed entitlements request leaves the customer with status "None",
      no platform and no details. */
  lemma FetchFailureMeansNoSubscription(response: Response, formatDate: Json -> string)
    requires !response.Ok?
    ensures SummaryOf(FetchEntitlements(response), formatDate) == Summary(None, NotSubscribed, [])
    ensures SummaryOf(FetchEntitlements(response), formatDate).status.Label() == "None"
  {
  }
}
