/**
  The login page: normalising the API address the user typed, and the
  checks and storage writes of a login attempt.

  The authentication request, its JSON body, the toasts and the navigation
  are not part of this model: how the request ended is an `AuthReply`
  parameter, and the request the page would send is returned as a value.
*/
module Login {
  import opened Wrappers
  import opened Text

  /** Every character of `s` is a slash. */
  predicate AllSlashes(s: string)
  {
    forall k :: 0 <= k < |s| ==> s[k] == '/'
  }

  /** `s.replace(/\/+$/, "")`: the run of slashes at the end removed. */
  function StripTrailingSlashes(s: string): (r: string)
    ensures |r| <= |s| && r == s[..|r|]
    ensures AllSlashes(s[|r|..])
    ensures r == [] || r[|r| - 1] != '/'
  {
    if s != [] && s[|s| - 1] == '/' then
      var r := StripTrailingSlashes(s[..|s| - 1]);
      assert s[|r|..] == s[..|s| - 1][|r|..] + [s[|s| - 1]];
      r
    else s
  }

  const Http: string := "http://"
  const Https: string := "https://"

  /** `/^https?:\/\//i.test(s)`: `s` starts with an http or https scheme, in any letter case. */
  predicate HasScheme(s: string)
  {
    StartsWithIgnoringCase(s, Http) || StartsWithIgnoringCase(s, Https)
  }

  /** The trimmed address, with "https://" put in front when it has no scheme. */
  function WithScheme(t: string): string
  {
    if HasScheme(t) then t else Https + t
  }

  /** `normalizeApiUrl`. */
  function NormalizeApiUrl(u: string): string
  {
    StripTrailingSlashes(WithScheme(Trim(u)))
  }

  /** An address with a scheme starts with an h of either case. */
  lemma SchemeStartsWithH(s: string)
    requires HasScheme(s)
    ensures s != [] && (s[0] == 'h' || s[0] == 'H')
  {
    assert LowerChar(s[0]) == 'h';
  }

  /** After the scheme is settled, the address starts with an h of either case. */
  lemma WithSchemeStartsWithH(t: string)
    ensures var w := WithScheme(t); w != [] && (w[0] == 'h' || w[0] == 'H')
  {
    if HasScheme(t) {
      SchemeStartsWithH(t);
    }
  }

  /** A normalised address never ends with a slash, and is never empty. */
  lemma NormalizedNoTrailingSlash(u: string)
    ensures var r := NormalizeApiUrl(u); r != [] && r[|r| - 1] != '/'
  {
    var w := WithScheme(Trim(u));
    WithSchemeStartsWithH(Trim(u));
  }

  /**
    Normalising removes the white space around the input, puts "https://" in
    front exactly when the trimmed input has no scheme, keeps an existing
    scheme as typed, and otherwise removes only slashes at the end.
  */
  lemma NormalizeShape(u: string)
    ensures var t := Trim(u); var r := NormalizeApiUrl(u);
      var w := if HasScheme(t) then t else Https + t;
      r == w[..|r|] && AllSlashes(w[|r|..])
  {
  }

  /** Stripping trailing slashes keeps every character up to the last one that is not a slash. */
  lemma NonSlashKept(w: string, i: nat)
    requires i < |w| && w[i] != '/'
    ensures i < |StripTrailingSlashes(w)|
  {
  }

  /** Without a scheme, any address with more than slashes in it comes out under "https://". */
  lemma SchemeAdded(u: string)
    requires !HasScheme(Trim(u)) && !AllSlashes(Trim(u))
    ensures StartsWith(NormalizeApiUrl(u), Https)
  {
    var t := Trim(u);
    var w := Https + t;
    assert WithScheme(t) == w;
    var r := StripTrailingSlashes(w);
    var k :| 0 <= k < |t| && t[k] != '/';
    assert w[|Https| + k] == t[k];
    NonSlashKept(w, |Https| + k);
    assert r[..|Https|] == w[..|Https|];
  }

  /** The host part of `w`: what follows its scheme, which is seven or eight characters long. */
  function SchemeLength(w: string): nat
  {
    if StartsWithIgnoringCase(w, Https) then |Https| else |Http|
  }

  /** A case-insensitive prefix survives cutting the string back to no shorter than it. */
  lemma PrefixKept(w: string, r: string, p: string)
    requires StartsWithIgnoringCase(w, p) && |r| <= |w| && r == w[..|r|] && |p| <= |r|
    ensures StartsWithIgnoringCase(r, p)
  {
    assert forall i :: 0 <= i < |p| ==> r[i] == w[i];
  }

  /** A scheme survives cutting the address back to a point beyond it. */
  lemma SchemeKept(w: string, r: string)
    requires HasScheme(w) && |r| <= |w| && r == w[..|r|] && SchemeLength(w) < |r|
    ensures HasScheme(r)
  {
    if StartsWithIgnoringCase(w, Https) {
      PrefixKept(w, r, Https);
    } else {
      PrefixKept(w, r, Http);
    }
  }

  /**
    Re-normalising a normalised address changes nothing, provided its host
    part has more than slashes in it and it does not end in white space.
  */
  lemma RenormalizeUnchanged(u: string)
    requires var w := WithScheme(Trim(u)); exists k :: SchemeLength(w) <= k < |w| && w[k] != '/'
    requires var r := NormalizeApiUrl(u); r == [] || !IsSpace(r[|r| - 1])
    ensures NormalizeApiUrl(NormalizeApiUrl(u)) == NormalizeApiUrl(u)
  {
    var t := Trim(u);
    var w := WithScheme(t);
    var r := NormalizeApiUrl(u);
    if !HasScheme(t) {
      assert forall i :: 0 <= i < |Https| ==> w[i] == Https[i];
    }
    assert HasScheme(w);
    var k :| SchemeLength(w) <= k < |w| && w[k] != '/';
    assert k < |r|;
    SchemeKept(w, r);
    SchemeStartsWithH(r);
    TrimUntouched(r);
  }

  /** The white-space proviso is needed: "a /" normalises to "https://a ", which re-normalises to "https://a". */
  lemma TrailingSpaceNotStable()
    ensures NormalizeApiUrl("a /") == "https://a "
    ensures NormalizeApiUrl("https://a ") == "https://a"
  {
    assert Trim("a /") == "a /";
    assert !StartsWithIgnoringCase("a /", Http) && !StartsWithIgnoringCase("a /", Https);
    assert WithScheme("a /") == "https://a /";
    assert Trim("https://a ") == "https://a" by {
      assert TrimStart("https://a ") == "https://a ";
      assert "https://a "[..9] == "https://a";
    }
    assert StartsWithIgnoringCase("https://a", Https);
  }

  /** `/lovable\.app/i.test(normalized)`: the address of the app itself, not of the restaurant's server. */
  predicate IsAppHost(normalized: string)
  {
    Contains(Lower(normalized), "lovable.app")
  }

  /** How the authentication request ended. */
  datatype AuthReply =
    | Unreachable                                                  // the request or its JSON failed
    | Replied(success: bool, deviceName: Option<string>, message: Option<string>)

  /** The request a login attempt sends: POST to `url` with the token. */
  datatype AuthRequest = AuthRequest(url: string, token: string)

  /** What a login attempt ended with. */
  datatype LoginResult =
    | MissingToken
    | MissingApiUrl
    | AppHostRejected
    | Denied(message: string)
    | Failed
    | LoggedIn

  const DefaultDeviceName: string := "POS Device"
  const DefaultDenial: string := "טוקן לא תקין"

  /** `value || fallback` for an optional string. */
  function OrElse(value: Option<string>, fallback: string): (r: string)
    ensures value.Some? && value.value != "" ==> r == value.value
    ensures value.None? || value.value == "" ==> r == fallback
  {
    if value.Some? && value.value != "" then value.value else fallback
  }

  /** The storage keys a successful login writes. */
  const TokenKey: string := "pos_token"
  const ApiUrlKey: string := "pos_api_url"
  const DeviceNameKey: string := "device_name"

  class LoginPage {
    /** The two input fields, as typed. */
    var token: string
    var apiUrl: string
    var isLoading: bool
    /** The string-valued storage keys. */
    var storage: map<string, string>

    constructor (storage: map<string, string>)
      ensures token == "" && apiUrl == "" && !isLoading && this.storage == storage
    {
      token := "";
      apiUrl := "";
      isLoading := false;
      this.storage := storage;
    }

    /**
      `handleLogin`: blank fields and the app's own address are refused before
      any request; otherwise the request is sent and, on success, the raw
      token, the normalised address and the device name are stored.
      `reply` is how the request ends when one is sent.
    */
    method HandleLogin(reply: AuthReply) returns (sent: Option<AuthRequest>, result: LoginResult)
      modifies this
      ensures token == old(token) && apiUrl == old(apiUrl)
      ensures isLoading == (old(isLoading) && result in {MissingToken, MissingApiUrl})
      ensures Trim(token) == "" ==> result == MissingToken
      ensures Trim(token) != "" && Trim(apiUrl) == "" ==> result == MissingApiUrl
      ensures Trim(token) != "" && Trim(apiUrl) != "" && IsAppHost(NormalizeApiUrl(apiUrl)) ==>
        result == AppHostRejected
      ensures Trim(token) != "" && Trim(apiUrl) != "" && !IsAppHost(NormalizeApiUrl(apiUrl)) ==> sent.Some?
      ensures sent.None? <==> result in {MissingToken, MissingApiUrl, AppHostRejected}
      ensures sent.Some? ==> sent.value == AuthRequest(NormalizeApiUrl(apiUrl) + "/api/pos/auth", token)
      ensures sent.Some? ==> match reply
        case Unreachable => result == Failed
        case Replied(success, deviceName, message) =>
          result == if success then LoggedIn else Denied(OrElse(message, DefaultDenial))
      ensures result == LoggedIn ==>
        storage == old(storage)[TokenKey := token][ApiUrlKey := NormalizeApiUrl(apiUrl)]
          [DeviceNameKey := OrElse(reply.deviceName, DefaultDeviceName)]
      ensures result != LoggedIn ==> storage == old(storage)
    {
      sent := None;
      if Trim(token) == "" {
        return sent, MissingToken;
      }
      if Trim(apiUrl) == "" {
        return sent, MissingApiUrl;
      }
      isLoading := true;
      var normalized := NormalizeApiUrl(apiUrl);
      if IsAppHost(normalized) {
        isLoading := false;
        return sent, AppHostRejected;
      }
      sent := Some(AuthRequest(normalized + "/api/pos/auth", token));
      match reply {
        case Unreachable =>
          result := Failed;
        case Replied(success, deviceName, message) =>
          if success {
            storage := storage[TokenKey := token];
            storage := storage[ApiUrlKey := normalized];
            storage := storage[DeviceNameKey := OrElse(deviceName, DefaultDeviceName)];
            result := LoggedIn;
          } else {
            result := Denied(OrElse(message, DefaultDenial));
          }
      }
      isLoading := false;
    }
  }
}
