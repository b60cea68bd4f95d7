/**
 * The admission guards of the controller: the `before_action` chain
 * `ensure_enabled`, `verify_api_token`, `check_ip_whitelist`, run in that
 * order, any failure raising before the action runs.
 */
module ApiGuards {
  import opened Options
  import opened RubyString

  /** The site settings the guards read. */
  datatype Settings = Settings(
    enabled: bool,        // telegram_integration_enabled
    apiToken: string,     // telegram_api_token
    ipWhitelist: string)  // telegram_ip_whitelist, comma-separated

  /** What the guards read from the request: the `Authorization` header
      (absent is `None`) and the client address. */
  datatype Credentials = Credentials(authorization: Option<string>, remoteIp: string)

  datatype Guard = EnsureEnabled | VerifyApiToken | CheckIpWhitelist

  /** The `before_action` declarations, in declaration order. */
  const BEFORE_ACTIONS: seq<Guard> := [EnsureEnabled, VerifyApiToken, CheckIpWhitelist]

  /** The number of positions at which two equally long strings differ. */
  function Mismatches(a: string, b: string): nat
    requires |a| == |b|
  {
    if a == [] then 0
    else (if a[0] != b[0] then 1 else 0) + Mismatches(a[1..], b[1..])
  }

  /** Two equally long strings differ nowhere iff they are equal. */
  lemma {:induction false} NoMismatchIffEqual(a: string, b: string)
    requires |a| == |b|
    ensures Mismatches(a, b) == 0 <==> a == b
  {
    if a != [] {
      NoMismatchIffEqual(a[1..], b[1..]);
      assert a == [a[0]] + a[1..] && b == [b[0]] + b[1..];
    }
  }

  /** `secure_compare`: equal lengths, then a comparison that looks at every
      position instead of stopping at the first difference; it decides plain
      string equality. */
  function SecureCompare(a: string, b: string): (r: bool)
    ensures r <==> a == b
  {
    if |a| == |b| then NoMismatchIffEqual(a, b); Mismatches(a, b) == 0 else false
  }

  /** `verify_api_token`: the header must be present and equal the
      configured token; a missing header is rejected as well. */
  function TokenAccepted(authorization: Option<string>, expected: string): (r: bool)
    ensures r <==> authorization == Some(expected)
  {
    authorization.Some? && SecureCompare(authorization.value, expected)
  }

  /** Stripping comma-free pieces leaves them comma-free and trimmed. */
  lemma StripPieces(pieces: seq<string>)
    requires forall i :: 0 <= i < |pieces| ==> ',' !in pieces[i]
    ensures forall i :: 0 <= i < |pieces| ==> ',' !in Strip(pieces[i]) && Trimmed(Strip(pieces[i]))
  {
  }

  /** `ip_whitelist`: the setting split on commas, each piece stripped; no
      entry holds a comma or starts or ends with whitespace. */
  function WhitelistEntries(setting: string): (r: seq<string>)
    ensures forall i :: 0 <= i < |r| ==> ',' !in r[i] && Trimmed(r[i])
  {
    var pieces := Split(setting);
    StripPieces(pieces);
    seq(|pieces|, i requires 0 <= i < |pieces| => Strip(pieces[i]))
  }

  /** `check_ip_whitelist`: the client address is one of the entries. Only a
      trimmed, comma-free address can be admitted, and the empty setting
      admits none. */
  function IpWhitelisted(setting: string, ip: string): (r: bool)
    ensures r ==> ',' !in ip && Trimmed(ip)
    ensures setting == "" ==> !r
  {
    SplitEmpty();
    ip in WhitelistEntries(setting)
  }

  /** For a real (non-empty) address the dropped trailing fields do not
      matter: it is admitted iff some comma-separated field strips to it. */
  lemma WhitelistedIffSomeField(setting: string, ip: string)
    requires ip != []
    ensures IpWhitelisted(setting, ip) <==>
      exists i :: 0 <= i < |Fields(setting)| && Strip(Fields(setting)[i]) == ip
  {
    if IpWhitelisted(setting, ip) {
      WhitelistedField(setting, ip);
    }
    if exists i :: 0 <= i < |Fields(setting)| && Strip(Fields(setting)[i]) == ip {
      var i :| 0 <= i < |Fields(setting)| && Strip(Fields(setting)[i]) == ip;
      FieldWhitelisted(setting, ip, i);
    }
  }

  lemma WhitelistedField(setting: string, ip: string)
    requires IpWhitelisted(setting, ip)
    ensures exists i :: 0 <= i < |Fields(setting)| && Strip(Fields(setting)[i]) == ip
  {
    var entries := WhitelistEntries(setting);
    var i :| 0 <= i < |entries| && entries[i] == ip;
    assert Fields(setting)[i] == Split(setting)[i];
  }

  lemma FieldWhitelisted(setting: string, ip: string, i: nat)
    requires ip != []
    requires i < |Fields(setting)| && Strip(Fields(setting)[i]) == ip
    ensures IpWhitelisted(setting, ip)
  {
    var fields := Fields(setting);
    var pieces := Split(setting);
    assert i < |pieces|;  // the dropped trailing fields are empty
    assert fields[i] == pieces[i];
    assert WhitelistEntries(setting)[i] == ip;
  }

  /** A setting with nothing but commas and whitespace admits no address:
      the check fails closed, the empty setting in particular. */
  lemma BlankWhitelistRejects(setting: string, ip: string)
    requires forall k :: 0 <= k < |setting| ==> setting[k] == ',' || IsSpace(setting[k])
    requires ip != []
    ensures !IpWhitelisted(setting, ip)
  {
    var fields := Fields(setting);
    BlankFields(setting);
    forall i | 0 <= i < |fields| ensures Strip(fields[i]) == [] {
      assert [] + [] + fields[i] == fields[i];
      StripOfPadded([], [], fields[i]);
    }
    WhitelistedIffSomeField(setting, ip);
  }

  lemma {:induction false} BlankFields(s: string)
    requires forall k :: 0 <= k < |s| ==> s[k] == ',' || IsSpace(s[k])
    ensures forall i :: 0 <= i < |Fields(s)| ==> AllSpace(Fields(s)[i])
  {
    if s != [] {
      BlankFields(s[1..]);
      var rest := Fields(s[1..]);
      if s[0] != ',' {
        var head := [s[0]] + rest[0];
        assert AllSpace(head) by {
          forall k | 0 <= k < |head| ensures IsSpace(head[k]) {
            if k > 0 { assert head[k] == rest[0][k - 1]; }
          }
        }
      }
    }
  }

  /** A setting written as the comma-join of addresses admits a real
      address iff one of them strips to it. */
  lemma WhitelistOfJoin(addresses: seq<string>, ip: string)
    requires addresses != []
    requires forall i :: 0 <= i < |addresses| ==> ',' !in addresses[i]
    requires ip != []
    ensures IpWhitelisted(Join(addresses), ip) <==>
      exists i :: 0 <= i < |addresses| && Strip(addresses[i]) == ip
  {
    FieldsJoin(addresses);
    WhitelistedIffSomeField(Join(addresses), ip);
  }

  /** A setting holding one trimmed address admits that address and no
      other. */
  lemma SingleAddressWhitelist(address: string, ip: string)
    requires address != [] && ',' !in address && Trimmed(address)
    ensures IpWhitelisted(address, ip) <==> ip == address
  {
    assert Join([address]) == address;
    FieldsJoin([address]);
    assert Fields(address) == [address];
    assert Split(address) == [address];
    assert [] + address + [] == address;
    StripOfPadded([], address, []);
    assert WhitelistEntries(address) == [address];
  }

  lemma EmptyWhitelistRejects(ip: string)
    ensures !IpWhitelisted("", ip)
  {
    SplitEmpty();
  }

  /** Whether one guard lets the request through. */
  function Passes(g: Guard, settings: Settings, cred: Credentials): (r: bool)
    ensures g == EnsureEnabled ==> (r <==> settings.enabled)
    ensures g == VerifyApiToken ==> (r <==> cred.authorization == Some(settings.apiToken))
    ensures g == CheckIpWhitelist ==> (r <==> IpWhitelisted(settings.ipWhitelist, cred.remoteIp))
  {
    match g
    case EnsureEnabled => settings.enabled
    case VerifyApiToken => TokenAccepted(cred.authorization, settings.apiToken)
    case CheckIpWhitelist => IpWhitelisted(settings.ipWhitelist, cred.remoteIp)
  }

  datatype Admission = Admitted | Rejected(guard: Guard)

  /** Runs the guards in order; the first one that fails halts the chain. */
  function RunChain(chain: seq<Guard>, settings: Settings, cred: Credentials): (r: Admission)
    ensures r == Admitted <==> forall i :: 0 <= i < |chain| ==> Passes(chain[i], settings, cred)
    ensures r.Rejected? ==>
      exists i :: (0 <= i < |chain| && chain[i] == r.guard
        && !Passes(chain[i], settings, cred)
        && forall j :: 0 <= j < i ==> Passes(chain[j], settings, cred))
  {
    if chain == [] then Admitted
    else if !Passes(chain[0], settings, cred) then Rejected(chain[0])
    else
      var r := RunChain(chain[1..], settings, cred);
      assert forall i :: 1 <= i < |chain| ==> chain[i] == chain[1..][i - 1];
      r
  }

  /** The controller's admission decision for one request: admitted iff the
      plugin is enabled, the token matches and the address is listed, so an
      empty allow-list admits nothing. */
  function Admit(settings: Settings, cred: Credentials): (r: Admission)
    ensures r == Admitted <==>
      settings.enabled && cred.authorization == Some(settings.apiToken)
      && IpWhitelisted(settings.ipWhitelist, cred.remoteIp)
    ensures settings.ipWhitelist == "" ==> r != Admitted
  {
    var r := RunChain(BEFORE_ACTIONS, settings, cred);
    assert r == Admitted <==>
      Passes(BEFORE_ACTIONS[0], settings, cred) && Passes(BEFORE_ACTIONS[1], settings, cred)
      && Passes(BEFORE_ACTIONS[2], settings, cred);
    r
  }

  /** The chain admits a request iff the plugin is enabled, the token
      matches and the address is whitelisted, and names the first check, in
      declaration order, that fails. */
  lemma AdmitOrder(settings: Settings, cred: Credentials)
    ensures Admit(settings, cred) == Admitted <==>
      settings.enabled && cred.authorization == Some(settings.apiToken)
      && IpWhitelisted(settings.ipWhitelist, cred.remoteIp)
    ensures Admit(settings, cred) == Rejected(EnsureEnabled) <==> !settings.enabled
    ensures Admit(settings, cred) == Rejected(VerifyApiToken) <==>
      settings.enabled && cred.authorization != Some(settings.apiToken)
    ensures Admit(settings, cred) == Rejected(CheckIpWhitelist) <==>
      settings.enabled && cred.authorization == Some(settings.apiToken)
      && !IpWhitelisted(settings.ipWhitelist, cred.remoteIp)
  {
    var r := Admit(settings, cred);
    if r.Rejected? {
      var i :| 0 <= i < 3 && BEFORE_ACTIONS[i] == r.guard
        && !Passes(BEFORE_ACTIONS[i], settings, cred)
        && forall j :: 0 <= j < i ==> Passes(BEFORE_ACTIONS[j], settings, cred);
      assert i == 0 || Passes(BEFORE_ACTIONS[0], settings, cred);
      assert i <= 1 || Passes(BEFORE_ACTIONS[1], settings, cred);
    } else {
      assert Passes(BEFORE_ACTIONS[0], settings, cred);
      assert Passes(BEFORE_ACTIONS[1], settings, cred);
      assert Passes(BEFORE_ACTIONS[2], settings, cred);
    }
  }

  /** An empty allow-list rejects every request, whatever its token. */
  lemma EmptyWhitelistFailsClosed(settings: Settings, cred: Credentials)
    requires settings.ipWhitelist == ""
    ensures Admit(settings, cred) != Admitted
  {
    EmptyWhitelistRejects(cred.remoteIp);
    AdmitOrder(settings, cred);
  }
}
