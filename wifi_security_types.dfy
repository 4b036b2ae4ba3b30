/**
 * WiFi security descriptions (crates/netdiag-types, wifi/security.rs): the
 * authentication, encryption and key-management suite of a network, the
 * usual presets, and the derived openness, enterprise flag, 0-4 level and
 * display text.
 */
module WifiSecurityTypes {

  /** `WifiAuthentication`. */
  datatype WifiAuthentication = AuthOpen | Wep | Wpa | Wpa2 | Wpa3 | Owe

  /** `WifiEncryption`. */
  datatype WifiEncryption = EncNone | EncWep | Tkip | Ccmp | Gcmp | Gcmp256 | Bip

  /** `KeyManagement`. */
  datatype KeyManagement = KmNone | Psk | Sae | Eap | EapSuiteB | EapSuiteB192 | KmOwe | FtPsk | FtEap | FtSae

  /** `SecurityType`. */
  datatype SecurityType = SecurityType(
    authentication: WifiAuthentication,
    encryption: WifiEncryption,
    keyManagement: KeyManagement,
    pmfRequired: bool,
    transitionMode: bool)

  /** `SecurityType::open`. */
  function Open(): (s: SecurityType)
    ensures IsOpen(s) && !IsEnterprise(s) && !s.pmfRequired
  {
    SecurityType(AuthOpen, EncNone, KmNone, false, false)
  }

  /** `SecurityType::wpa2_personal`. */
  function Wpa2Personal(): (s: SecurityType)
    ensures !IsOpen(s) && !IsEnterprise(s) && !s.pmfRequired && SecurityLevel(s) == 3
  {
    SecurityType(Wpa2, Ccmp, Psk, false, false)
  }

  /** `SecurityType::wpa3_personal`: the only preset that requires protected management frames. */
  function Wpa3Personal(): (s: SecurityType)
    ensures !IsOpen(s) && !IsEnterprise(s) && s.pmfRequired && SecurityLevel(s) == 4
  {
    SecurityType(Wpa3, Gcmp256, Sae, true, false)
  }

  /** `SecurityType::wpa2_enterprise`. */
  function Wpa2Enterprise(): (s: SecurityType)
    ensures !IsOpen(s) && IsEnterprise(s) && !s.pmfRequired && SecurityLevel(s) == 3
  {
    SecurityType(Wpa2, Ccmp, Eap, false, false)
  }

  /** `is_open`: open authentication without encryption. */
  predicate IsOpen(s: SecurityType) {
    s.authentication == AuthOpen && s.encryption == EncNone
  }

  /** `is_enterprise`: an 802.1X (EAP) key-management suite. */
  predicate IsEnterprise(s: SecurityType) {
    s.keyManagement == Eap || s.keyManagement == EapSuiteB || s.keyManagement == EapSuiteB192
  }

  /**
   * `security_level`: 0 for an open network, 1 WEP, 2 WPA, 3 WPA2, 4 WPA3,
   * and 2 for anything else (OWE, or open authentication with encryption).
   */
  function SecurityLevel(s: SecurityType): (r: nat)
    ensures r <= 4
    ensures r == 0 <==> IsOpen(s)
    ensures r == 4 <==> s.authentication == Wpa3
    ensures r == 1 <==> s.authentication == Wep
    ensures r == 3 <==> s.authentication == Wpa2
  {
    match s.authentication
    case AuthOpen => if s.encryption == EncNone then 0 else 2
    case Wep => 1
    case Wpa => 2
    case Wpa2 => 3
    case Wpa3 => 4
    case Owe => 2
  }

  /** The display name of an authentication method. */
  function AuthName(a: WifiAuthentication): (r: string)
    ensures |r| >= 3
  {
    match a
    case Wep => "WEP"
    case Wpa => "WPA"
    case Wpa2 => "WPA2"
    case Wpa3 => "WPA3"
    case AuthOpen => "Open"
    case Owe => "OWE"
  }

  /** `transition_auth_name`: the older method a transition-mode network also accepts. */
  function TransitionName(s: SecurityType): (r: string)
    ensures |r| >= 3
  {
    if s.transitionMode && s.authentication == Wpa3 then "WPA2"
    else if s.transitionMode && s.authentication == Wpa2 then "WPA"
    else AuthName(s.authentication)
  }

  /**
   * `to_display_string`: "Open" for an open network; otherwise
   * "{auth}/{older}" in transition mode and "{auth}-Enterprise" or
   * "{auth}-Personal" outside it.
   */
  function ToDisplayString(s: SecurityType): (r: string)
    ensures IsOpen(s) ==> r == "Open"
  {
    if IsOpen(s) then "Open"
    else if s.transitionMode then AuthName(s.authentication) + "/" + TransitionName(s)
    else AuthName(s.authentication) + "-" + (if IsEnterprise(s) then "Enterprise" else "Personal")
  }

  /** A display text is exactly "Open" when the network is open. */
  lemma DisplayOpenIff(s: SecurityType)
    ensures ToDisplayString(s) == "Open" <==> IsOpen(s)
  {
    if !IsOpen(s) {
      var r := ToDisplayString(s);
      var n := AuthName(s.authentication);
      assert r[..|n|] == n;
      assert |r| > |n|;
      if |n| == 4 {
        assert |r| > 4;
      }
    }
  }

  /**
   * A secured network's text starts with its authentication name, followed
   * by '/' in transition mode and '-' otherwise; an enterprise network
   * outside transition mode ends in "Enterprise".
   */
  lemma DisplayShape(s: SecurityType)
    requires !IsOpen(s)
    ensures var r := ToDisplayString(s); var n := AuthName(s.authentication);
      |r| > |n| && r[..|n|] == n && r[|n|] == (if s.transitionMode then '/' else '-')
    ensures !s.transitionMode && IsEnterprise(s) ==>
      var r := ToDisplayString(s); |r| >= 10 && r[|r| - 10..] == "Enterprise"
  {
  }

  /** The presets' texts. */
  lemma PresetTexts()
    ensures ToDisplayString(Open()) == "Open"
    ensures ToDisplayString(Wpa2Personal()) == "WPA2-Personal"
    ensures ToDisplayString(Wpa3Personal()) == "WPA3-Personal"
    ensures ToDisplayString(Wpa2Enterprise()) == "WPA2-Enterprise"
    ensures ToDisplayString(SecurityType(Wpa3, Ccmp, Sae, true, true)) == "WPA3/WPA2"
  {
  }
}
