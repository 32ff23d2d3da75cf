/**
 * The main plugin file (woocommerce-taxify.php): the enablement
 * predicates, the request-type switch, the ready-to-run check, the store
 * prefix and the postcode check. Options are read from a snapshot of the
 * options table; `home_url`, `site_url`, whether WooCommerce is active,
 * whether `SoapClient` exists and the outcome of the version comparisons
 * are inputs.
 */
module Plugin {
  import opened Php
  import opened Host

  // ---------------------------------------------------------------------
  // Enablement
  // ---------------------------------------------------------------------

  /** wc_tax_enabled: `woocommerce_calc_taxes` is exactly the string 'yes'. */
  predicate WcTaxEnabled(values: map<string, Value>)
  {
    OptionValue(values, "woocommerce_calc_taxes") == VStr("yes")
  }

  /** taxify_enabled: store taxes on, `wc_taxify_enabled == 'yes'` and an API key. */
  predicate TaxifyEnabled(values: map<string, Value>)
  {
    var enabled := OptionValue(values, "wc_taxify_enabled");
    WcTaxEnabled(values) && !Empty(enabled) && LooseEqStr(enabled, "yes")
    && !Empty(OptionValue(values, "wc_taxify_api_key"))
  }

  /**
   * Under PHP's loose `==`, `wc_taxify_enabled` counts as on when it is the
   * string 'yes' or the boolean true, and in no other case.
   */
  lemma TaxifyEnabledIff(values: map<string, Value>)
    ensures TaxifyEnabled(values) <==>
      OptionValue(values, "woocommerce_calc_taxes") == VStr("yes")
      && OptionValue(values, "wc_taxify_enabled") in {VStr("yes"), VBool(true)}
      && !Empty(OptionValue(values, "wc_taxify_api_key"))
  {
  }

  // ---------------------------------------------------------------------
  // Request type
  // ---------------------------------------------------------------------

  /** is_request: which kind of request this is; `false` for an unknown type. */
  function IsRequest(kind: string, isAdmin: bool, doingAjax: bool, doingCron: bool): (r: bool)
    ensures kind !in {"admin", "ajax", "cron", "frontend"} ==> !r
    ensures kind == "frontend" ==> (r <==> (!isAdmin || doingAjax) && !doingCron)
    ensures kind == "admin" ==> r == isAdmin
    ensures kind == "ajax" ==> r == doingAjax
    ensures kind == "cron" ==> r == doingCron
  {
    match kind
    case "admin" => isAdmin
    case "ajax" => doingAjax
    case "cron" => doingCron
    case "frontend" => (!isAdmin || doingAjax) && !doingCron
    case _ => false
  }

  // ---------------------------------------------------------------------
  // ready_to_run
  // ---------------------------------------------------------------------

  /** The admin notices ready_to_run registers. */
  datatype Notice =
    | WooCommerceDisabled | WooCommerceVersionDisabled | SoapClientDisabled
    | ActivateApiKey | CheckExternalBlocking | TaxesConfigured | PricesIncludeTax
    | TaxBasedOn | BestResults

  /** The environment ready_to_run inspects besides the options. */
  datatype Environment = Environment(wooCommerceActive: bool, versionAtLeast30: bool,
                                     soapClient: bool, versionBelow32: bool)

  /**
   * ready_to_run: the verdict and the notices added, in order. It refuses
   * when WooCommerce is inactive, older than 3.0 or `SoapClient` is missing;
   * everything after that only adds notices.
   */
  function ReadyToRun(values: map<string, Value>, env: Environment): (r: (bool, seq<Notice>))
    ensures !r.0 <==> !env.wooCommerceActive || !env.versionAtLeast30 || !env.soapClient
    ensures !r.0 ==> |r.1| == 1
    ensures r.0 ==> CheckExternalBlocking in r.1
    ensures r.0 ==> (ActivateApiKey in r.1 <==> Empty(OptionValue(values, "wc_taxify_api_key")))
  {
    if !env.wooCommerceActive then (false, [WooCommerceDisabled])
    else if !env.versionAtLeast30 then (false, [WooCommerceVersionDisabled])
    else if !env.soapClient then (false, [SoapClientDisabled])
    else
      var key := if Empty(OptionValue(values, "wc_taxify_api_key")) then [ActivateApiKey] else [];
      var configured :=
        if !LooseEqStr(OptionValue(values, "wc_taxify_taxes_configured"), "yes") then [TaxesConfigured] else [];
      var inclusive :=
        if LooseEqStr(OptionValue(values, "woocommerce_prices_include_tax"), "yes")
           && LooseEqStr(OptionValue(values, "woocommerce_calc_taxes"), "yes")
        then [PricesIncludeTax] else [];
      var base := if LooseEqStr(OptionValue(values, "woocommerce_tax_based_on"), "base") then [TaxBasedOn] else [];
      var best := if env.versionBelow32 then [BestResults] else [];
      (true, key + [CheckExternalBlocking] + configured + inclusive + base + best)
  }

  // ---------------------------------------------------------------------
  // Store prefix
  // ---------------------------------------------------------------------

  /** `str_ireplace( $needle, '', $s )`: every non-overlapping match, left to right. */
  function RemoveAllCI(s: string, needle: string): (r: string)
    requires |needle| > 0
    ensures |r| <= |s|
    decreases |s|
  {
    if |s| == 0 then s
    else if MatchesAtCI(s, needle, 0) then RemoveAllCI(s[|needle|..], needle)
    else [s[0]] + RemoveAllCI(s[1..], needle)
  }

  /** remove_url_prefix: `http://` then `https://` are removed, case-insensitively. */
  function RemoveUrlPrefix(url: string): string
  {
    RemoveAllCI(RemoveAllCI(url, "http://"), "https://")
  }

  /** No match anywhere: str_ireplace changes nothing. */
  lemma {:induction false} RemoveAllCINoMatch(s: string, needle: string)
    requires |needle| > 0
    requires forall j :: 0 <= j <= |s| ==> !MatchesAtCI(s, needle, j)
    ensures RemoveAllCI(s, needle) == s
    decreases |s|
  {
    if |s| > 0 {
      assert !MatchesAtCI(s, needle, 0);
      forall j | 0 <= j <= |s[1..]| ensures !MatchesAtCI(s[1..], needle, j) {
        assert !MatchesAtCI(s, needle, j + 1);
        if j + |needle| <= |s[1..]| {
          assert s[1..][j..j + |needle|] == s[j + 1..j + 1 + |needle|];
        }
      }
      RemoveAllCINoMatch(s[1..], needle);
    }
  }

  /** A host with no scheme in it. */
  predicate NoScheme(host: string)
  {
    forall j :: 0 <= j <= |host| ==> !MatchesAtCI(host, "http://", j) && !MatchesAtCI(host, "https://", j)
  }

  /** `http://host` loses its scheme and nothing else. */
  lemma RemoveUrlPrefixHttp(host: string)
    requires NoScheme(host)
    ensures RemoveUrlPrefix("http://" + host) == host
  {
    var s := "http://" + host;
    assert MatchesAtCI(s, "http://", 0) by {
      assert s[0..7] == "http://";
    }
    assert s[7..] == host;
    RemoveAllCINoMatch(host, "http://");
    RemoveAllCINoMatch(host, "https://");
  }

  /** `https://host` loses its scheme and nothing else. */
  lemma RemoveUrlPrefixHttps(host: string)
    requires NoScheme(host)
    ensures RemoveUrlPrefix("https://" + host) == host
  {
    var s := "https://" + host;
    forall j | 0 <= j <= |s| ensures !MatchesAtCI(s, "http://", j) {
      HttpsHostNoHttpAt(host, j);
    }
    RemoveAllCINoMatch(s, "http://");
    assert MatchesAtCI(s, "https://", 0) by {
      assert s[0..8] == "https://";
    }
    assert s[8..] == host;
    RemoveAllCINoMatch(host, "https://");
  }

  /**
   * `http://` occurs nowhere in `https://host`: only position 0 starts with
   * an `h`, and there `https:/` differs from `http://`.
   */
  lemma HttpsHostNoHttpAt(host: string, j: int)
    requires NoScheme(host) && 0 <= j <= |host| + 8
    ensures !MatchesAtCI("https://" + host, "http://", j)
  {
    var s := "https://" + host;
    if j + 7 <= |s| {
      if j == 0 {
        assert Lower(s[0..7])[4] == LowerChar(s[4]) == 's';
      } else if j <= 7 {
        assert s[j] == "https://"[j];
        assert Lower(s[j..j + 7])[0] == LowerChar(s[j]) != 'h';
      } else {
        assert s[j..j + 7] == host[j - 8..j - 1];
        assert !MatchesAtCI(host, "http://", j - 8);
      }
    }
  }

  /**
   * get_store_prefix: the `wc_taxify_store_prefix` option when non-empty,
   * otherwise `home_url()` (or `site_url()` when that is empty) without its
   * scheme.
   */
  function StorePrefix(values: map<string, Value>, homeUrl: string, siteUrl: string): (r: string)
    ensures !Empty(OptionValue(values, "wc_taxify_store_prefix")) ==>
      r == ToStr(OptionValue(values, "wc_taxify_store_prefix"))
    ensures Empty(OptionValue(values, "wc_taxify_store_prefix")) ==>
      r == RemoveUrlPrefix(if !EmptyStr(homeUrl) then homeUrl else siteUrl)
  {
    var option := OptionValue(values, "wc_taxify_store_prefix");
    if !Empty(option) then ToStr(option)
    else RemoveUrlPrefix(if !EmptyStr(homeUrl) then homeUrl else siteUrl)
  }

  // ---------------------------------------------------------------------
  // is_postcode
  // ---------------------------------------------------------------------

  function IsAlnum(c: char): bool
  {
    IsDigit(c) || 'a' <= c <= 'z' || 'A' <= c <= 'Z'
  }

  /** `preg_replace( '/[\s\-A-Za-z0-9]/', '', $s )`. */
  function StripAllowed(s: string): (r: string)
    ensures forall i :: 0 <= i < |r| ==> !IsPcreSpace(r[i]) && r[i] != '-' && !IsAlnum(r[i])
    ensures (forall i :: 0 <= i < |s| ==> IsPcreSpace(s[i]) || s[i] == '-' || IsAlnum(s[i])) ==> r == ""
  {
    if |s| == 0 then ""
    else if IsPcreSpace(s[0]) || s[0] == '-' || IsAlnum(s[0]) then StripAllowed(s[1..])
    else [s[0]] + StripAllowed(s[1..])
  }

  predicate AllDigits(s: string)
  {
    forall i :: 0 <= i < |s| ==> IsDigit(s[i])
  }

  /** `^([0-9]{5})(-[0-9]{4})?` up to the end of the subject. */
  predicate ZipBody(s: string)
  {
    (|s| == 5 && AllDigits(s)) || (|s| == 10 && AllDigits(s[..5]) && s[5] == '-' && AllDigits(s[6..]))
  }

  /** The whole pattern: PCRE's `$` also matches before one final newline. */
  predicate ZipShape(s: string)
  {
    ZipBody(s) || (|s| > 0 && s[|s| - 1] == '\n' && ZipBody(s[..|s| - 1]))
  }

  /**
   * is_postcode: `false` when a non-empty postcode has any character other
   * than whitespace, `-` or an ASCII letter or digit (after trimming);
   * otherwise whether the country is 'US' and the postcode is five digits,
   * optionally followed by `-` and four more.
   */
  function IsPostcode(postcode: Value, country: Value): bool
  {
    if !Empty(postcode) && |Trim(StripAllowed(ToStr(postcode)))| > 0 then false
    else !Empty(country) && LooseEqStr(country, "US") && ZipShape(ToStr(postcode))
  }

  /** For a US store, a string postcode passes exactly when it has the ZIP or ZIP+4 shape. */
  lemma IsPostcodeUS(s: string)
    ensures IsPostcode(VStr(s), VStr("US")) <==> ZipShape(s)
  {
    if ZipShape(s) {
      var t := if ZipBody(s) then s else s[..|s| - 1];
      assert ZipBody(t);
      if |t| == 10 {
        assert forall i :: 0 <= i < 5 ==> t[..5][i] == t[i];
        assert forall i :: 6 <= i < 10 ==> t[6..][i - 6] == t[i];
      }
      assert forall i :: 0 <= i < |t| ==> IsDigit(t[i]) || t[i] == '-';
      assert forall i :: 0 <= i < |s| ==> IsPcreSpace(s[i]) || s[i] == '-' || IsAlnum(s[i]) by {
        forall i | 0 <= i < |s| ensures IsPcreSpace(s[i]) || s[i] == '-' || IsAlnum(s[i]) {
          if i < |t| {
            assert s[i] == t[i];
          }
        }
      }
    }
  }

  /** Outside the US nothing is a postcode. */
  lemma IsPostcodeNotUS(postcode: Value, country: Value)
    requires !LooseEqStr(country, "US")
    ensures !IsPostcode(postcode, country)
  {
  }

  // ---------------------------------------------------------------------
  // The singleton's properties
  // ---------------------------------------------------------------------

  /**
   * The plugin instance. define_properties reads the options once, when
   * the singleton is built, so later option changes are not seen.
   */
  class Taxify {
    const apiKey: string
    const storePrefix: string
    const rateId: string

    constructor(values: map<string, Value>, homeUrl: string, siteUrl: string)
      ensures apiKey == (if Empty(OptionValue(values, "wc_taxify_api_key")) then ""
                         else ToStr(OptionValue(values, "wc_taxify_api_key")))
      ensures storePrefix == StorePrefix(values, homeUrl, siteUrl)
      ensures rateId == (if Empty(OptionValue(values, "wc_taxify_rate_id")) then ""
                         else ToStr(OptionValue(values, "wc_taxify_rate_id")))
    {
      var key := OptionValue(values, "wc_taxify_api_key");
      apiKey := if !Empty(key) then ToStr(key) else "";
      storePrefix := StorePrefix(values, homeUrl, siteUrl);
      var rate := OptionValue(values, "wc_taxify_rate_id");
      rateId := if !Empty(rate) then ToStr(rate) else "";
    }
  }
}
