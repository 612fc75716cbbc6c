/** The OAuth callback of app/api/emails/oauth/callback/route.ts: an ordered
    chain of early returns that picks where the browser is redirected, and the
    success URL built by setting four query parameters in place. The token
    exchange and the profile fetch are parameters that succeed or throw. The
    handler writes nothing to the store, so nothing here models one. */
module OAuthCallback {
  import opened JsBuiltins

  /** The token set returned by the code exchange; either token may be null. */
  datatype Tokens = Tokens(accessToken: Option<string>, refreshToken: Option<string>)

  datatype ProfileEmail = ProfileEmail(value: Option<string>)

  /** The part of the People API profile the handler reads. */
  datatype Profile = Profile(emailAddresses: Option<seq<ProfileEmail>>)

  /** The query of the callback request: `searchParams.get` of 'code' and 'error'. */
  datatype CallbackQuery = CallbackQuery(code: Option<string>, error: Option<string>)

  /** Where the handler sends the browser. */
  datatype Decision =
    | ErrorRedirect(reason: string)
    | LoginRedirect
    | SuccessRedirect(email: string, accessToken: string, refreshToken: string)

  const UnknownEmail := "unknown@gmail.com"

  /** `userInfo.emailAddresses?.[0]?.value || 'unknown@gmail.com'`. */
  function FirstEmail(p: Profile): string {
    if p.emailAddresses.Some? && |p.emailAddresses.value| > 0 then
      OrElse(p.emailAddresses.value[0].value, UnknownEmail)
    else UnknownEmail
  }

  /** The decision chain of `GET`. `exchange` is getTokensFromCode, `profile` is
      getUserInfo; `sessionToken` is the session-token cookie and `env` the
      process environment. */
  function Decide(q: CallbackQuery, sessionToken: Option<string>, env: map<string, string>,
                  exchange: string -> Result<Tokens>, profile: string -> Result<Profile>): Decision
  {
    if Truthy(q.error) then ErrorRedirect("access_denied")
    else if !Truthy(q.code) then ErrorRedirect("no_code")
    else match exchange(q.code.value)
      case Err(_) => ErrorRedirect("callback_failed")
      case Ok(tokens) =>
        match profile(OrElse(tokens.accessToken, ""))
        case Err(_) => ErrorRedirect("callback_failed")
        case Ok(info) =>
          if !Truthy(sessionToken) then LoginRedirect
          else if !Truthy(Lookup(env, "NEXT_PUBLIC_SUPABASE_URL")) || !Truthy(Lookup(env, "SUPABASE_SERVICE_ROLE_KEY")) then
            ErrorRedirect("config")
          else SuccessRedirect(FirstEmail(info), OrElse(tokens.accessToken, ""), OrElse(tokens.refreshToken, ""))
  }

  /** An `error` parameter wins over everything, whether or not `code` is present. */
  lemma ErrorParameterWins(q: CallbackQuery, sessionToken: Option<string>, env: map<string, string>,
                           exchange: string -> Result<Tokens>, profile: string -> Result<Profile>)
    requires Truthy(q.error)
    ensures Decide(q, sessionToken, env, exchange, profile) == ErrorRedirect("access_denied")
  {
  }

  /** Without error and code the answer is no_code and neither oracle is consulted:
      the decision is the same whatever they would have done. */
  lemma NoCodeSkipsExchange(q: CallbackQuery, sessionToken: Option<string>, env: map<string, string>,
                            ex1: string -> Result<Tokens>, pr1: string -> Result<Profile>,
                            ex2: string -> Result<Tokens>, pr2: string -> Result<Profile>)
    requires !Truthy(q.error) && !Truthy(q.code)
    ensures Decide(q, sessionToken, env, ex1, pr1) == ErrorRedirect("no_code")
    ensures Decide(q, sessionToken, env, ex1, pr1) == Decide(q, sessionToken, env, ex2, pr2)
  {
  }

  /** The exchange and the profile fetch come before the session check: their
      failure gives callback_failed even without a session or configuration. */
  lemma ExchangeFailureBeforeSession(q: CallbackQuery, env: map<string, string>,
                                     exchange: string -> Result<Tokens>, profile: string -> Result<Profile>)
    requires !Truthy(q.error) && Truthy(q.code)
    requires exchange(q.code.value).Err?
          || profile(OrElse(exchange(q.code.value).value.accessToken, "")).Err?
    ensures Decide(q, None, env, exchange, profile) == ErrorRedirect("callback_failed")
  {
  }

  /** After a successful exchange, a missing session goes to the login page, and
      a missing store URL or service key to error=config. */
  lemma SessionThenConfig(q: CallbackQuery, sessionToken: Option<string>, env: map<string, string>,
                          exchange: string -> Result<Tokens>, profile: string -> Result<Profile>)
    requires !Truthy(q.error) && Truthy(q.code) && exchange(q.code.value).Ok?
    requires profile(OrElse(exchange(q.code.value).value.accessToken, "")).Ok?
    ensures !Truthy(sessionToken) ==> Decide(q, sessionToken, env, exchange, profile) == LoginRedirect
    ensures Truthy(sessionToken) && !Truthy(Lookup(env, "NEXT_PUBLIC_SUPABASE_URL"))
            ==> Decide(q, sessionToken, env, exchange, profile) == ErrorRedirect("config")
    ensures Truthy(sessionToken) && !Truthy(Lookup(env, "SUPABASE_SERVICE_ROLE_KEY"))
            ==> Decide(q, sessionToken, env, exchange, profile) == ErrorRedirect("config")
  {
  }

  /** The handler succeeds iff every step succeeds; the success redirect carries
      the first profile address (or 'unknown@gmail.com') and both tokens (or ''). */
  lemma SuccessIffAllStepsPass(q: CallbackQuery, sessionToken: Option<string>, env: map<string, string>,
                               exchange: string -> Result<Tokens>, profile: string -> Result<Profile>)
    ensures Decide(q, sessionToken, env, exchange, profile).SuccessRedirect? <==>
      && !Truthy(q.error) && Truthy(q.code)
      && exchange(q.code.value).Ok?
      && profile(OrElse(exchange(q.code.value).value.accessToken, "")).Ok?
      && Truthy(sessionToken)
      && Truthy(Lookup(env, "NEXT_PUBLIC_SUPABASE_URL")) && Truthy(Lookup(env, "SUPABASE_SERVICE_ROLE_KEY"))
    ensures var d := Decide(q, sessionToken, env, exchange, profile);
      d.SuccessRedirect? ==>
        var tokens := exchange(q.code.value).value;
        var info := profile(OrElse(tokens.accessToken, "")).value;
        && d.email == FirstEmail(info)
        && d.accessToken == (if Truthy(tokens.accessToken) then tokens.accessToken.value else "")
        && d.refreshToken == (if Truthy(tokens.refreshToken) then tokens.refreshToken.value else "")
  {
  }

  /** The address shown is the first profile address when it is non-empty, and
      'unknown@gmail.com' when the list is absent or empty or its first entry is. */
  lemma FirstEmailCases(p: Profile)
    ensures p.emailAddresses == None ==> FirstEmail(p) == "unknown@gmail.com"
    ensures p.emailAddresses == Some([]) ==> FirstEmail(p) == "unknown@gmail.com"
    ensures p.emailAddresses.Some? && |p.emailAddresses.value| > 0 && Truthy(p.emailAddresses.value[0].value)
            ==> FirstEmail(p) == p.emailAddresses.value[0].value.value
    ensures p.emailAddresses.Some? && |p.emailAddresses.value| > 0 && !Truthy(p.emailAddresses.value[0].value)
            ==> FirstEmail(p) == "unknown@gmail.com"
    ensures FirstEmail(p) != ""
  {
  }

  type Param = (string, string)

  /** The first value under `name`, as `URLSearchParams.get`. */
  function GetParam(ps: seq<Param>, name: string): Option<string> {
    if ps == [] then None
    else if ps[0].0 == name then Some(ps[0].1)
    else GetParam(ps[1..], name)
  }

  /** The pairs whose name is not `name`, in order. */
  function Without(ps: seq<Param>, name: string): seq<Param> {
    if ps == [] then []
    else (if ps[0].0 == name then [] else [ps[0]]) + Without(ps[1..], name)
  }

  /** `URLSearchParams.set(name, value)`: the first pair named `name` takes the new
      value and the other pairs with that name are removed; if there is none,
      the pair is appended. */
  function SetParam(ps: seq<Param>, name: string, value: string): seq<Param> {
    if ps == [] then [(name, value)]
    else if ps[0].0 == name then [(name, value)] + Without(ps[1..], name)
    else [ps[0]] + SetParam(ps[1..], name, value)
  }

  /** After `set`, `get` of that name gives the new value, and every other
      parameter is as it was, in the same order. */
  lemma {:induction false} SetParamSpec(ps: seq<Param>, name: string, value: string)
    ensures GetParam(SetParam(ps, name, value), name) == Some(value)
    ensures Without(SetParam(ps, name, value), name) == Without(ps, name)
  {
    if ps == [] {
    } else if ps[0].0 == name {
      WithoutIdempotent(ps[1..], name);
    } else {
      SetParamSpec(ps[1..], name, value);
    }
  }

  lemma {:induction false} WithoutIdempotent(ps: seq<Param>, name: string)
    ensures Without(Without(ps, name), name) == Without(ps, name)
  {
    if ps != [] {
      WithoutIdempotent(ps[1..], name);
      var rest := Without(ps[1..], name);
      if ps[0].0 != name {
        assert Without(ps, name) == [ps[0]] + rest;
        assert ([ps[0]] + rest)[1..] == rest;
      } else {
        assert Without(ps, name) == rest;
      }
    }
  }

  /** `set` leaves `get` of every other name as it was. */
  lemma {:induction false} SetParamKeepsOthers(ps: seq<Param>, name: string, value: string, other: string)
    requires other != name
    ensures GetParam(SetParam(ps, name, value), other) == GetParam(ps, other)
  {
    if ps != [] && ps[0].0 == name {
      WithoutKeepsOthers(ps[1..], name, other);
    } else if ps != [] {
      SetParamKeepsOthers(ps[1..], name, value, other);
    }
  }

  lemma {:induction false} WithoutKeepsOthers(ps: seq<Param>, name: string, other: string)
    requires other != name
    ensures GetParam(Without(ps, name), other) == GetParam(ps, other)
  {
    if ps != [] {
      WithoutKeepsOthers(ps[1..], name, other);
      var rest := Without(ps[1..], name);
      if ps[0].0 != name {
        assert Without(ps, name) == [ps[0]] + rest;
        assert ([ps[0]] + rest)[1..] == rest;
      } else {
        assert Without(ps, name) == rest;
      }
    }
  }

  /** `get` of a name no pair carries is null. */
  lemma {:induction false} GetParamAbsent(ps: seq<Param>, name: string)
    requires forall i :: 0 <= i < |ps| ==> ps[i].0 != name
    ensures GetParam(ps, name) == None
  {
    if ps != [] {
      GetParamAbsent(ps[1..], name);
    }
  }

  /** `get` finds the first pair with the name. */
  lemma {:induction false} GetParamAt(ps: seq<Param>, i: nat)
    requires i < |ps| && forall j :: 0 <= j < i ==> ps[j].0 != ps[i].0
    ensures GetParam(ps, ps[i].0) == Some(ps[i].1)
  {
    if i > 0 {
      GetParamAt(ps[1..], i - 1);
    }
  }

  /** Setting a name that is not yet present appends the pair. */
  lemma {:induction false} SetNewParamAppends(ps: seq<Param>, name: string, value: string)
    requires GetParam(ps, name) == None
    ensures SetParam(ps, name, value) == ps + [(name, value)]
  {
    if ps != [] {
      SetNewParamAppends(ps[1..], name, value);
    }
  }

  /** The query string of a URL, updated in place by `set`. */
  class SearchParams {
    var pairs: seq<Param>

    constructor ()
      ensures pairs == []
    {
      pairs := [];
    }

    method Set(name: string, value: string)
      modifies this
      ensures pairs == SetParam(old(pairs), name, value)
    {
      pairs := SetParam(pairs, name, value);
    }
  }

  datatype Url = Url(path: string, query: seq<Param>)

  /** The success URL: a fresh '/email-accounts' URL with four parameters set in turn. */
  method SuccessUrl(email: string, accessToken: string, refreshToken: string) returns (url: Url)
    ensures url.path == "/email-accounts"
    ensures GetParam(url.query, "success") == Some("true") && GetParam(url.query, "email") == Some(email)
    ensures GetParam(url.query, "access_token") == Some(accessToken)
    ensures GetParam(url.query, "refresh_token") == Some(refreshToken)
    ensures url.query == [("success", "true"), ("email", email), ("access_token", accessToken),
                          ("refresh_token", refreshToken)]
  {
    var params := new SearchParams();
    SetNewParamAppends(params.pairs, "success", "true");
    params.Set("success", "true");
    GetParamAbsent(params.pairs, "email");
    SetNewParamAppends(params.pairs, "email", email);
    params.Set("email", email);
    GetParamAbsent(params.pairs, "access_token");
    SetNewParamAppends(params.pairs, "access_token", accessToken);
    params.Set("access_token", accessToken);
    GetParamAbsent(params.pairs, "refresh_token");
    SetNewParamAppends(params.pairs, "refresh_token", refreshToken);
    params.Set("refresh_token", refreshToken);
    var ps := params.pairs;
    GetParamAt(ps, 0);
    GetParamAt(ps, 1);
    GetParamAt(ps, 2);
    GetParamAt(ps, 3);
    url := Url("/email-accounts", params.pairs);
  }

  /** `GET`: the redirect the handler answers with. */
  method Callback(q: CallbackQuery, sessionToken: Option<string>, env: map<string, string>,
                  exchange: string -> Result<Tokens>, profile: string -> Result<Profile>) returns (url: Url)
    ensures match Decide(q, sessionToken, env, exchange, profile)
      case ErrorRedirect(reason) => url == Url("/email-accounts", [("error", reason)])
      case LoginRedirect => url == Url("/login", [])
      case SuccessRedirect(e, a, r) =>
        url.path == "/email-accounts" &&
        GetParam(url.query, "success") == Some("true") && GetParam(url.query, "email") == Some(e) &&
        GetParam(url.query, "access_token") == Some(a) && GetParam(url.query, "refresh_token") == Some(r)
  {
    match Decide(q, sessionToken, env, exchange, profile)
    case ErrorRedirect(reason) =>
      url := Url("/email-accounts", [("error", reason)]);
    case LoginRedirect =>
      url := Url("/login", []);
    case SuccessRedirect(e, a, r) =>
      url := SuccessUrl(e, a, r);
  }
}
