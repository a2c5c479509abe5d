/** Authorization requests: parsing, validation, and the form that carries them through the consent page. */
module OAuth {
  import opened Wrappers
  import opened Strings
  import CimdUrl

  type Params = map<string, string>

  /** `redirectable` says whether the error may be delivered to the client's redirect URI. */
  datatype OAuthError = OAuthError(code: string, redirectable: bool)

  /** `challengeOk` and `hostRule` stand for the checks on the code challenge and on the host of a client identifier. */
  datatype Config = Config(resourceUrl: string, invokeScope: string, challengeOk: string -> bool,
                           hostRule: string -> bool)

  function Get(params: Params, key: string): string { if key in params then params[key] else "" }

  function Fail(code: string): OAuthError { OAuthError(code, true) }

  function Refuse(code: string): OAuthError { OAuthError(code, false) }

  // ---- parameters come once

  predicate KeysDistinct(pairs: seq<(string, string)>) {
    forall i, j | 0 <= i < j < |pairs| :: pairs[i].0 != pairs[j].0
  }

  predicate Holds(params: Params, pairs: seq<(string, string)>) {
    && (forall i | 0 <= i < |pairs| :: pairs[i].0 in params && params[pairs[i].0] == pairs[i].1)
    && (forall k | k in params :: exists i :: 0 <= i < |pairs| && pairs[i].0 == k)
  }

  /** single_valued: a repeated parameter refuses the request, anything else is exactly the given pairs. */
  method SingleValued(pairs: seq<(string, string)>) returns (r: Result<Params, OAuthError>)
    ensures r.Ok? <==> KeysDistinct(pairs)
    ensures r.Ok? ==> Holds(r.value, pairs)
    ensures r.Err? ==> r == Err(Refuse("invalid_request"))
  {
    var out: Params := map[];
    for i := 0 to |pairs|
      invariant KeysDistinct(pairs[..i]) && Holds(out, pairs[..i])
    {
      var (key, value) := pairs[i];
      if key in out {
        var j :| 0 <= j < i && pairs[..i][j].0 == key;
        assert pairs[j].0 == pairs[i].0;
        return Err(Refuse("invalid_request"));
      }
      assert forall j | 0 <= j < i :: pairs[..i][j].0 in out;
      assert pairs[..i + 1] == pairs[..i] + [pairs[i]];
      out := out[key := value];
    }
    assert pairs[..|pairs|] == pairs;
    return Ok(out);
  }

  // ---- /authorize

  datatype AuthorizeParams = AuthorizeParams(
    clientId: string,
    redirectUri: string,
    scope: string,
    state: Option<string>,
    codeChallenge: string,
    resource: string)

  function ValidateClientId(cfg: Config, params: Params): (r: Result<string, OAuthError>)
    ensures r.Ok? <==> Get(params, "client_id") != "" && CimdUrl.AcceptableUrl(Get(params, "client_id"), cfg.hostRule)
    ensures r.Ok? ==> r.value == Get(params, "client_id")
    ensures r.Err? ==> r.error == Refuse("invalid_request")
  {
    var id := Get(params, "client_id");
    if id == "" || !CimdUrl.AcceptableUrl(id, cfg.hostRule) then Err(Refuse("invalid_request")) else Ok(id)
  }

  /** An absent redirect URI stands for the only one that is registered; a given one must be registered as it is. */
  function ResolveRedirectUri(params: Params, registered: seq<string>): (r: Result<string, OAuthError>)
    ensures r.Ok? <==>
      if Get(params, "redirect_uri") == "" then |registered| == 1 else Get(params, "redirect_uri") in registered
    ensures r.Ok? ==> r.value in registered
    ensures r.Err? ==> r.error == Refuse("invalid_request")
    ensures r.Ok? && Get(params, "redirect_uri") != "" ==> r.value == Get(params, "redirect_uri")
  {
    var given := Get(params, "redirect_uri");
    if given == "" then (if |registered| == 1 then Ok(registered[0]) else Err(Refuse("invalid_request")))
    else if given in registered then Ok(given) else Err(Refuse("invalid_request"))
  }

  function NonEmpty(parts: seq<string>): (kept: seq<string>)
    ensures "" !in kept && forall p | p in kept :: p in parts
  {
    if parts == [] then []
    else if parts[0] == "" then NonEmpty(parts[1..])
    else [parts[0]] + NonEmpty(parts[1..])
  }

  /** The scopes named in a scope parameter. */
  function Tokens(scope: string): (tokens: seq<string>)
    ensures forall t | t in tokens :: t != "" && ' ' !in t
  {
    NonEmpty(Split(scope, ' '))
  }

  predicate ScopesAllowed(cfg: Config, scopes: seq<string>) {
    forall s | s in scopes :: s == "openid" || s == cfg.invokeScope
  }

  function Scope(cfg: Config, scopes: seq<string>): string {
    Join(if scopes == [] then [cfg.invokeScope] else scopes, ' ')
  }

  function ValidateAuthorize(cfg: Config, params: Params, clientId: string, redirectUri: string)
    : Result<AuthorizeParams, OAuthError>
  {
    var challenge := Get(params, "code_challenge");
    var resource := if Get(params, "resource") == "" then cfg.resourceUrl else params["resource"];
    var scopes := Tokens(Get(params, "scope"));
    if Get(params, "response_type") != "code" then Err(Fail("unsupported_response_type"))
    else if challenge == "" || !cfg.challengeOk(challenge) then Err(Fail("invalid_request"))
    else if Get(params, "code_challenge_method") != "S256" then Err(Fail("invalid_request"))
    else if resource != cfg.resourceUrl then Err(Fail("invalid_target"))
    else if !ScopesAllowed(cfg, scopes) then Err(Fail("invalid_scope"))
    else
      var state := Get(params, "state");
      Ok(AuthorizeParams(clientId, redirectUri, Scope(cfg, scopes),
                         if state == "" then None else Some(state), challenge, resource))
  }

  // ---- what an accepted request satisfies

  /** `scope[a..b]` is one of the words that spaces separate. */
  predicate Word(scope: string, a: int, b: int) {
    && 0 <= a < b <= |scope| && (forall i | a <= i < b :: scope[i] != ' ')
    && (a == 0 || scope[a - 1] == ' ') && (b == |scope| || scope[b] == ' ')
  }

  /** No word but those the server offers is asked for. */
  ghost predicate WordsOffered(cfg: Config, scope: string) {
    forall a: int, b: int | Word(scope, a, b) :: scope[a..b] in {"openid", cfg.invokeScope}
  }

  predicate ChallengeOk(cfg: Config, params: Params) {
    && Get(params, "code_challenge") != "" && cfg.challengeOk(Get(params, "code_challenge"))
    && Get(params, "code_challenge_method") == "S256"
  }

  predicate ResourceOk(cfg: Config, params: Params) { Get(params, "resource") in {"", cfg.resourceUrl} }

  /** Everything /authorize asks of a request besides client and redirect URI. */
  ghost predicate Acceptable(cfg: Config, params: Params) {
    && Get(params, "response_type") == "code" && ChallengeOk(cfg, params) && ResourceOk(cfg, params)
    && WordsOffered(cfg, Get(params, "scope"))
  }

  /** The accepted request says what was asked for, with the defaults for what was left out. */
  ghost predicate Conveys(cfg: Config, params: Params, p: AuthorizeParams) {
    && p.codeChallenge == Get(params, "code_challenge") && p.resource == cfg.resourceUrl
    && p.state == (if Get(params, "state") == "" then None else Some(Get(params, "state")))
    && (if forall a: int, b: int :: !Word(Get(params, "scope"), a, b) then p.scope == cfg.invokeScope
        else Split(p.scope, ' ') == Tokens(Get(params, "scope")))
    && ("" !in Split(Get(params, "scope"), ' ') ==> p.scope == Get(params, "scope"))
  }

  predicate SpaceAt(s: string, k: nat) { k < |s| && s[k] == ' ' && forall i | 0 <= i < k :: s[i] != ' ' }

  lemma {:induction false} FirstSpace(s: string) returns (k: nat)
    requires ' ' in s
    ensures SpaceAt(s, k)
  {
    if s[0] == ' ' {
      k := 0;
    } else {
      assert s == [s[0]] + s[1..];
      k := FirstSpace(s[1..]);
      k := k + 1;
    }
  }

  lemma {:induction false} NonEmptyHas(parts: seq<string>, t: string)
    ensures t in NonEmpty(parts) <==> t in parts && t != ""
  {
    if parts != [] {
      NonEmptyHas(parts[1..], t);
      assert parts == [parts[0]] + parts[1..];
    }
  }

  /** The words of a text with a space in it are its first part and the words of the rest. */
  lemma WordsAfterSpace(s: string, k: nat, a: int, b: int)
    requires SpaceAt(s, k)
    ensures Word(s, a, b) <==> (a == 0 < b == k) || (a > k && Word(s[k + 1..], a - k - 1, b - k - 1))
  {
    var rest := s[k + 1..];
    if a > k && a < b <= |s| {
      assert forall i | a <= i < b :: s[i] == rest[i - k - 1];
      assert forall i | a - k - 1 <= i < b - k - 1 :: rest[i] == s[i + k + 1];
    }
  }

  ghost predicate HasWord(s: string, t: string) { exists a: int, b: int :: Word(s, a, b) && s[a..b] == t }

  lemma {:induction false} TokensAreWords(s: string, t: string)
    ensures t in Tokens(s) <==> HasWord(s, t)
    decreases |s|
  {
    NonEmptyHas(Split(s, ' '), t);
    if ' ' in s {
      var k := FirstSpace(s);
      var rest := s[k + 1..];
      assert s == s[..k] + [' '] + rest;
      SplitFirst(s[..k], ' ', rest);
      NonEmptyHas(Split(rest, ' '), t);
      TokensAreWords(rest, t);
      HasWordAfterSpace(s, k, t);
    } else {
      SplitPlain(s, ' ');
      if s != "" { assert s[0..|s|] == s && Word(s, 0, |s|); }
      forall a: int, b: int | Word(s, a, b) ensures a == 0 && b == |s| {}
    }
  }

  lemma HasWordAfterSpace(s: string, k: nat, t: string)
    requires SpaceAt(s, k)
    ensures HasWord(s, t) <==> (t == s[..k] && t != "") || HasWord(s[k + 1..], t)
  {
    var rest := s[k + 1..];
    if a: int, b: int :| Word(s, a, b) && s[a..b] == t {
      WordsAfterSpace(s, k, a, b);
      if a > k { assert rest[a - k - 1..b - k - 1] == s[a..b] && Word(rest, a - k - 1, b - k - 1); }
    }
    if a: int, b: int :| Word(rest, a, b) && rest[a..b] == t {
      WordsAfterSpace(s, k, a + k + 1, b + k + 1);
      assert s[a + k + 1..b + k + 1] == rest[a..b];
    }
    if t == s[..k] && t != "" {
      WordsAfterSpace(s, k, 0, k);
      assert s[0..k] == t;
    }
  }

  lemma WordsOfferedIff(cfg: Config, scope: string)
    ensures ScopesAllowed(cfg, Tokens(scope)) <==> WordsOffered(cfg, scope)
    ensures Tokens(scope) == [] <==> forall a: int, b: int :: !Word(scope, a, b)
  {
    forall t ensures t in Tokens(scope) <==> HasWord(scope, t) { TokensAreWords(scope, t); }
    hide Tokens, Word;
    if Tokens(scope) != [] { assert Tokens(scope)[0] in Tokens(scope); }
    forall a: int, b: int | Word(scope, a, b) ensures a < b <= |scope| && scope[a..b] in Tokens(scope) {
      WordBounds(scope, a, b);
      assert HasWord(scope, scope[a..b]);
    }
  }

  lemma WordBounds(scope: string, a: int, b: int)
    requires Word(scope, a, b)
    ensures a < b <= |scope|
  {}

  /**
    validate_authorize accepts exactly the acceptable requests, and says of the others what is wrong
    with them first; every such error may be delivered to the redirect URI.
    */
  lemma ValidateAuthorizeIff(cfg: Config, params: Params, clientId: string, redirectUri: string)
    ensures var r := ValidateAuthorize(cfg, params, clientId, redirectUri);
      && (r.Ok? <==> Acceptable(cfg, params))
      && (r.Ok? ==> r.value.clientId == clientId && r.value.redirectUri == redirectUri && Conveys(cfg, params, r.value))
      && (Get(params, "response_type") != "code" ==> r == Err(Fail("unsupported_response_type")))
      && (Get(params, "response_type") == "code" ==>
            if !ChallengeOk(cfg, params) then r == Err(Fail("invalid_request"))
            else if !ResourceOk(cfg, params) then r == Err(Fail("invalid_target"))
            else if !WordsOffered(cfg, Get(params, "scope")) then r == Err(Fail("invalid_scope"))
            else r.Ok?)
  {
    var scope := Get(params, "scope");
    WordsOfferedIff(cfg, scope);
    if Tokens(scope) != [] { SplitJoin(Tokens(scope), ' '); }
    if "" !in Split(scope, ' ') { NothingToDrop(Split(scope, ' ')); }
    JoinSplit(scope, ' ');
    hide Tokens, Word, WordsOffered, Split;
  }

  function AsFormFields(p: AuthorizeParams): Params {
    var fields := map["response_type" := "code", "client_id" := p.clientId, "redirect_uri" := p.redirectUri,
                      "scope" := p.scope, "code_challenge" := p.codeChallenge, "code_challenge_method" := "S256",
                      "resource" := p.resource];
    if p.state.Some? then fields["state" := p.state.value] else fields
  }

  const AUTHORIZE_FIELDS := ["response_type", "client_id", "redirect_uri", "scope", "state", "code_challenge",
                             "code_challenge_method", "resource"]

  /** A form that carries the fields, next to any others. */
  predicate Carries(form: Params, fields: Params) { forall k | k in AUTHORIZE_FIELDS :: Get(form, k) == Get(fields, k) }

  // ---- the round trip through the consent page

  lemma {:induction false} NothingToDrop(parts: seq<string>)
    requires "" !in parts
    ensures NonEmpty(parts) == parts
  {
    if parts != [] { NothingToDrop(parts[1..]); }
  }

  lemma TokensOfJoin(scopes: seq<string>)
    requires scopes != [] && forall s | s in scopes :: s != "" && ' ' !in s
    ensures Tokens(Join(scopes, ' ')) == scopes
  {
    SplitJoin(scopes, ' ');
    NothingToDrop(scopes);
  }

  /** The scope that is stored reads back as itself. */
  predicate ScopeReadsBack(cfg: Config, scopes: seq<string>) {
    ScopesAllowed(cfg, Tokens(Scope(cfg, scopes))) && Scope(cfg, Tokens(Scope(cfg, scopes))) == Scope(cfg, scopes)
  }

  lemma RequestedScopesReadBack(cfg: Config, scopes: seq<string>)
    requires ScopesAllowed(cfg, scopes) && (forall s | s in scopes :: s != "" && ' ' !in s)
    requires scopes != [] || ' ' !in cfg.invokeScope
    ensures ScopeReadsBack(cfg, scopes)
  {
    if scopes != [] {
      TokensOfJoin(scopes);
    } else if cfg.invokeScope == "" {
      assert Split("", ' ') == [""] && Tokens("") == [];
    } else {
      TokensOfJoin([cfg.invokeScope]);
    }
  }

  /**
    A form that carries accepted parameters resolves to the same redirect URI and parameters, if its
    scope reads back.
    */
  lemma CarriedFormValidates(cfg: Config, params: Params, clientId: string, registered: seq<string>, form: Params)
    requires ResolveRedirectUri(params, registered).Ok?
    requires var uri := ResolveRedirectUri(params, registered).value;
      && ValidateAuthorize(cfg, params, clientId, uri).Ok?
      && Carries(form, AsFormFields(ValidateAuthorize(cfg, params, clientId, uri).value))
    ensures var uri := ResolveRedirectUri(params, registered).value;
      && ResolveRedirectUri(form, registered) == Ok(uri)
      && (ValidateAuthorize(cfg, form, clientId, uri) == ValidateAuthorize(cfg, params, clientId, uri)
          <==> ScopeReadsBack(cfg, Tokens(Get(params, "scope"))))
  {
    var uri := ResolveRedirectUri(params, registered).value;
    var p := ValidateAuthorize(cfg, params, clientId, uri).value;
    hide Tokens, Scope, ScopesAllowed;
    FieldsOf(p);
    hide AsFormFields;
    CarriedValues(form, AsFormFields(p));
  }

  lemma CarriedValues(form: Params, fields: Params)
    requires Carries(form, fields)
    ensures Get(form, "response_type") == Get(fields, "response_type")
      && Get(form, "client_id") == Get(fields, "client_id")
    ensures Get(form, "redirect_uri") == Get(fields, "redirect_uri") && Get(form, "scope") == Get(fields, "scope")
    ensures Get(form, "state") == Get(fields, "state") && Get(form, "code_challenge") == Get(fields, "code_challenge")
    ensures Get(form, "code_challenge_method") == Get(fields, "code_challenge_method")
      && Get(form, "resource") == Get(fields, "resource")
  {
    assert AUTHORIZE_FIELDS[0] == "response_type" && AUTHORIZE_FIELDS[1] == "client_id"
      && AUTHORIZE_FIELDS[2] == "redirect_uri";
    assert AUTHORIZE_FIELDS[3] == "scope" && AUTHORIZE_FIELDS[4] == "state" && AUTHORIZE_FIELDS[5] == "code_challenge";
    assert AUTHORIZE_FIELDS[6] == "code_challenge_method" && AUTHORIZE_FIELDS[7] == "resource";
  }

  lemma FieldsOf(p: AuthorizeParams)
    ensures var f := AsFormFields(p);
      && Get(f, "response_type") == "code" && Get(f, "client_id") == p.clientId
      && Get(f, "redirect_uri") == p.redirectUri
      && Get(f, "scope") == p.scope && Get(f, "code_challenge") == p.codeChallenge
      && Get(f, "code_challenge_method") == "S256"
      && Get(f, "resource") == p.resource && Get(f, "state") == (if p.state.Some? then p.state.value else "")
  {}

  /** Posting the consent form back yields the identical request, as long as the configured scope has no space. */
  lemma ConsentRoundTrip(cfg: Config, params: Params, clientId: string, registered: seq<string>, form: Params)
    requires ' ' !in cfg.invokeScope
    requires ResolveRedirectUri(params, registered).Ok?
    requires var uri := ResolveRedirectUri(params, registered).value;
      && ValidateAuthorize(cfg, params, clientId, uri).Ok?
      && Carries(form, AsFormFields(ValidateAuthorize(cfg, params, clientId, uri).value))
    ensures var uri := ResolveRedirectUri(params, registered).value;
      && ResolveRedirectUri(form, registered) == Ok(uri)
      && ValidateAuthorize(cfg, form, clientId, uri) == ValidateAuthorize(cfg, params, clientId, uri)
      && Get(form, "client_id") == clientId
  {
    var scopes := Tokens(Get(params, "scope"));
    CarriedFormValidates(cfg, params, clientId, registered, form);
    assert ScopesAllowed(cfg, scopes);
    RequestedScopesReadBack(cfg, scopes);
    var p := ValidateAuthorize(cfg, params, clientId, ResolveRedirectUri(params, registered).value).value;
    hide Tokens, Scope, ScopesAllowed;
    FieldsOf(p);
    CarriedValues(form, AsFormFields(p));
  }
}
