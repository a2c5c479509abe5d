/** From an incoming request and one row of the mapping table to the request that goes to Cognito. */
module Proxy {
  import opened Wrappers
  import opened Registry
  import opened OAuth
  import F = Freshness
  import Re = Reaction
  import S = Steps
  import Sys = System
  import St = Staleness
  import H = History
  import D = Runs
  import Fetcher
  import L = Lock
  import CimdUrl

  /**
    What /authorize does with a request: an error page, a redirect carrying an error, or a validated
    request with its row.
    */
  datatype Verdict =
    | Page(error: OAuthError)
    | ErrorRedirect(to: string, error: OAuthError, state: string)
    | Accepted(request: AuthorizeParams, row: Row)

  function AsOAuthError(r: F.Refusal): OAuthError {
    match r
    case InvalidClient => Refuse("invalid_client")
    case TemporarilyUnavailable => Fail("temporarily_unavailable")
  }

  /** What the two reads return, the time between them, and the registrar's reply if it is asked. */
  datatype Outside = Outside(first: Option<Row>, now: int, reply: F.Reply, later: Option<Row>)

  /** The client is known and served, and the redirect URI is settled: from here on errors are redirected. */
  ghost predicate Settles(cfg: Config, params: Params, o: Outside, uri: string) {
    && ValidateClientId(cfg, params).Ok? && Re.Usable(o.first)
    && ResolveRedirectUri(params, o.first.value.redirectUris) == Ok(uri)
  }

  /** Everything a request needs to be let through with a row. */
  ghost predicate Authorizable(cfg: Config, params: Params, o: Outside, uri: string, row: Row) {
    && Settles(cfg, params, o, uri) && Acceptable(cfg, params)
    && F.Decide(o.first, o.now, o.reply, o.later) == Ok(row) && uri in row.redirectUris
  }

  /** ... and what is let through. */
  ghost predicate Authorizes(cfg: Config, params: Params, o: Outside, request: AuthorizeParams, row: Row) {
    && Authorizable(cfg, params, o, request.redirectUri, row)
    && request.clientId == Get(params, "client_id") && Conveys(cfg, params, request)
  }

  /** The request is accepted with some row. */
  ghost predicate LetThrough(cfg: Config, params: Params, o: Outside) {
    exists uri, row :: Authorizable(cfg, params, o, uri, row)
  }

  /**
    _validated_authorize: a request is let through exactly if it is authorizable, with its row. No
    error is redirected before the client is known, enabled and has registered that URI; after that
    the first thing wrong is what is redirected, with the state that was sent.
    */
  method ValidatedAuthorize(cfg: Config, params: Params, o: Outside) returns (v: Verdict)
    ensures v.Accepted? <==> LetThrough(cfg, params, o)
    ensures v.Accepted? ==> Authorizes(cfg, params, o, v.request, v.row)
    ensures v.ErrorRedirect? ==>
      Settles(cfg, params, o, v.to) && v.error.redirectable && v.state == Get(params, "state")
    ensures !ValidateClientId(cfg, params).Ok? ==> v == Page(Refuse("invalid_request"))
    ensures ValidateClientId(cfg, params).Ok? && !Re.Usable(o.first) ==> v == Page(Refuse("invalid_client"))
    ensures ValidateClientId(cfg, params).Ok? && Re.Usable(o.first) ==>
      ResolveRedirectUri(params, o.first.value.redirectUris).Err? ==> v == Page(Refuse("invalid_request"))
    ensures forall uri | Settles(cfg, params, o, uri) && !Acceptable(cfg, params) ::
      Err(v.error) == ValidateAuthorize(cfg, params, Get(params, "client_id"), uri)
      && v == ErrorRedirect(uri, v.error, Get(params, "state"))
    ensures forall uri | Settles(cfg, params, o, uri) && Acceptable(cfg, params) ::
      match F.Decide(o.first, o.now, o.reply, o.later)
      case Err(TemporarilyUnavailable) =>
        v == ErrorRedirect(uri, Fail("temporarily_unavailable"), Get(params, "state"))
      case Err(InvalidClient) => v == Page(Refuse("invalid_client"))
      case Ok(row) => uri !in row.redirectUris ==> v == Page(Refuse("invalid_request"))
  {
    hide ValidateClientId, ValidateAuthorize, ResolveRedirectUri, Acceptable, Conveys, F.Refuses, F.Vouches;
    var id := ValidateClientId(cfg, params);
    if id.Err? { return Page(id.error); }
    var first := F.EnabledMapping(o.first);
    if first.Err? { return Page(AsOAuthError(first.error)); }
    var uri := ResolveRedirectUri(params, first.value.redirectUris);
    if uri.Err? { return Page(uri.error); }
    assert Settles(cfg, params, o, uri.value);
    var request := ValidateAuthorize(cfg, params, id.value, uri.value);
    ValidateAuthorizeIff(cfg, params, id.value, uri.value);
    if request.Err? {
      ErrorsAreRedirectable(cfg, params, id.value, uri.value);
      return ErrorRedirect(uri.value, request.error, Get(params, "state"));
    }
    var mapping := F.FreshMapping(Some(first.value), None, o.now, o.reply, o.later);
    assert mapping == F.Decide(o.first, o.now, o.reply, o.later);
    hide F.Decide;
    if mapping.Err? {
      var error := AsOAuthError(mapping.error);
      return if error.redirectable then ErrorRedirect(uri.value, error, Get(params, "state")) else Page(error);
    }
    if request.value.redirectUri !in mapping.value.redirectUris { return Page(Refuse("invalid_request")); }
    assert Authorizable(cfg, params, o, uri.value, mapping.value);
    return Accepted(request.value, mapping.value);
  }

  lemma ErrorsAreRedirectable(cfg: Config, params: Params, clientId: string, uri: string)
    ensures var r := ValidateAuthorize(cfg, params, clientId, uri); r.Err? ==> r.error.redirectable
  {}

  // ---- what goes to Cognito

  /** The query of the redirect to Cognito's authorize endpoint. */
  function CognitoQuery(request: AuthorizeParams, row: Row): Params {
    AsFormFields(request)["client_id" := row.id]
  }

  lemma AuthorizedByDecision(cfg: Config, params: Params, o: Outside, request: AuthorizeParams, row: Row)
    requires Authorizes(cfg, params, o, request, row)
    ensures F.Decide(o.first, o.now, o.reply, o.later) == Ok(row) && request.redirectUri in row.redirectUris
    ensures ValidateClientId(cfg, params) == Ok(request.clientId)
  {
    hide F.Decide, ResolveRedirectUri, Acceptable, Conveys, CimdUrl.AcceptableUrl;
  }

  lemma QueryFields(request: AuthorizeParams, row: Row, k: string)
    ensures Get(CognitoQuery(request, row), "client_id") == row.id
    ensures k != "client_id" ==> Get(CognitoQuery(request, row), k) == Get(AsFormFields(request), k)
  {
    hide AsFormFields;
  }

  lemma ConveyedAsSent(cfg: Config, params: Params, request: AuthorizeParams)
    requires Conveys(cfg, params, request)
    ensures request.codeChallenge == Get(params, "code_challenge") && request.resource == cfg.resourceUrl
    ensures (if request.state.Some? then request.state.value else "") == Get(params, "state")
  {
    hide Word, Tokens, Get;
  }

  /**
    Only the client id is translated: the request to Cognito is for a code with an S256 challenge, at
    a redirect URI of the row; challenge and state are those that were sent.
    */
  lemma OnlyTheClientIdIsTranslated(cfg: Config, params: Params, o: Outside, request: AuthorizeParams, row: Row,
                                    k: string)
    requires Authorizes(cfg, params, o, request, row)
    ensures var query := CognitoQuery(request, row);
      && Get(query, "client_id") == row.id && Get(query, "redirect_uri") in row.redirectUris
      && Get(query, "response_type") == "code" && Get(query, "code_challenge_method") == "S256"
      && Get(query, "code_challenge") == Get(params, "code_challenge") && Get(query, "state") == Get(params, "state")
      && Get(query, "resource") == cfg.resourceUrl && Get(query, "scope") == request.scope
      && (k != "client_id" ==> Get(query, k) == Get(AsFormFields(request), k))
  {
    AuthorizedByDecision(cfg, params, o, request, row);
    ConveyedAsSent(cfg, params, request);
    FieldsOf(request);
    hide *;
    QueryFields(request, row, k);
    QueryFields(request, row, "redirect_uri");
    QueryFields(request, row, "response_type");
    QueryFields(request, row, "code_challenge_method");
    QueryFields(request, row, "code_challenge");
    QueryFields(request, row, "state");
    QueryFields(request, row, "resource");
    QueryFields(request, row, "scope");
  }

  // ---- the consent form

  /** Where the browser goes next: an error page, the client with an error, or Cognito. */
  datatype Answer =
    | ErrorPage(error: OAuthError)
    | ToClient(to: string, code: string, state: string)
    | ToCognito(query: Params)

  /** The form's token is that of the cookie. */
  predicate SameSite(cookie: string, form: Params) { cookie != "" && Get(form, "csrf") == cookie }

  ghost predicate ForwardsRequest(cfg: Config, form: Params, o: Outside, query: Params) {
    exists request, row :: Authorizes(cfg, form, o, request, row) && query == CognitoQuery(request, row)
  }

  /**
    consent: only a form of this site that approves an authorizable request leads to Cognito. What
    the form says is validated again, and a request that was denied goes back with its state.
    */
  method Consent(cfg: Config, cookie: string, form: Params, o: Outside) returns (a: Answer)
    ensures a.ToCognito? <==> SameSite(cookie, form) && LetThrough(cfg, form, o) && Get(form, "decision") == "approve"
    ensures a.ToCognito? ==> ForwardsRequest(cfg, form, o, a.query)
    ensures !SameSite(cookie, form) ==> a == ErrorPage(Refuse("invalid_request"))
    ensures SameSite(cookie, form) && LetThrough(cfg, form, o) && Get(form, "decision") != "approve" ==>
      a.ToClient? && Settles(cfg, form, o, a.to) && a == ToClient(a.to, "access_denied", Get(form, "state"))
    ensures a.ToClient? ==> Settles(cfg, form, o, a.to) && a.state == Get(form, "state")
  {
    hide ValidateClientId, ValidateAuthorize, ResolveRedirectUri, LetThrough, Settles, Acceptable, Conveys,
      CognitoQuery,
      F.Decide, Re.Usable, Authorizable;
    var field := Get(form, "csrf");
    if cookie == "" || field == "" || cookie != field { return ErrorPage(Refuse("invalid_request")); }
    var v := ValidatedAuthorize(cfg, form, o);
    match v
    case Page(error) => return ErrorPage(error);
    case ErrorRedirect(to, error, state) =>
      return ToClient(to, error.code, state);
    case Accepted(request, row) =>
      ConveyedAsSent(cfg, form, request);
      AuthorizedIsSettled(cfg, form, o, request, row);
      if Get(form, "decision") != "approve" {
        return ToClient(request.redirectUri, "access_denied", if request.state.Some? then request.state.value else "");
      }
      return ToCognito(CognitoQuery(request, row));
  }

  lemma AuthorizedIsSettled(cfg: Config, params: Params, o: Outside, request: AuthorizeParams, row: Row)
    requires Authorizes(cfg, params, o, request, row)
    ensures Settles(cfg, params, o, request.redirectUri)
  {
    hide Conveys, Acceptable, F.Decide;
  }

  // ---- the token endpoint

  /** A supported grant with all its parameters, and for a code with a redirect URI of the row. */
  predicate GrantAllowed(form: Params, row: Row) {
    || (Get(form, "grant_type") == "authorization_code"
        && Get(form, "code") != "" && Get(form, "code_verifier") != "" && Get(form, "redirect_uri") != ""
        && Get(form, "redirect_uri") in row.redirectUris)
    || (Get(form, "grant_type") == "refresh_token" && Get(form, "refresh_token") != "")
  }

  /** The row's app client, and the grant's own parameters as the client sent them. */
  predicate RelaysGrant(form: Params, row: Row, upstream: Params) {
    upstream ==
      if Get(form, "grant_type") == "refresh_token"
      then map["grant_type" := "refresh_token", "client_id" := row.id, "refresh_token" := Get(form, "refresh_token")]
      else map["grant_type" := "authorization_code", "client_id" := row.id, "code" := Get(form, "code"),
               "code_verifier" := Get(form, "code_verifier"), "redirect_uri" := Get(form, "redirect_uri")]
  }

  /** The upstream form: that and the resource, which can only be the one this server fronts. */
  predicate Relays(cfg: Config, form: Params, row: Row, upstream: Params) {
    && RelaysGrant(form, row, upstream - {"resource"})
    && ("resource" in upstream <==> Get(form, "resource") != "")
    && ("resource" in upstream ==> upstream["resource"] == Get(form, "resource") == cfg.resourceUrl)
  }

  /** Whether all the fields are given. */
  method AllGiven(form: Params, fields: seq<string>) returns (given: bool)
    ensures given <==> forall k | k in fields :: Get(form, k) != ""
  {
    for i := 0 to |fields|
      invariant forall j | 0 <= j < i :: Get(form, fields[j]) != ""
    {
      if Get(form, fields[i]) == "" { return false; }
    }
    return true;
  }

  /** The grant's part of a token request, or what is wrong with it. */
  method GrantUpstream(form: Params, row: Row) returns (r: Result<Params, OAuthError>)
    ensures r.Ok? <==> GrantAllowed(form, row)
    ensures r.Ok? ==> RelaysGrant(form, row, r.value)
    ensures Get(form, "grant_type") == "" ==> r == Err(Refuse("invalid_request"))
    ensures Get(form, "grant_type") !in {"", "authorization_code", "refresh_token"} ==>
      r == Err(Refuse("unsupported_grant_type"))
    ensures Get(form, "grant_type") == "refresh_token" && r.Err? ==> r == Err(Refuse("invalid_request"))
    ensures Get(form, "grant_type") == "authorization_code" && r.Err? ==>
      r == Err(Refuse(if Get(form, "code") == "" || Get(form, "code_verifier") == "" || Get(form, "redirect_uri") == ""
                      then "invalid_request" else "invalid_grant"))
  {
    var grant := Get(form, "grant_type");
    if grant == "authorization_code" {
      var fields := ["code", "code_verifier", "redirect_uri"];
      var given := AllGiven(form, fields);
      assert fields[0] in fields && fields[1] in fields && fields[2] in fields;
      if !given { return Err(Refuse("invalid_request")); }
      if form["redirect_uri"] !in row.redirectUris { return Err(Refuse("invalid_grant")); }
      return Ok(map["grant_type" := grant, "client_id" := row.id, "code" := form["code"],
                    "code_verifier" := form["code_verifier"], "redirect_uri" := form["redirect_uri"]]);
    } else if grant == "refresh_token" {
      if Get(form, "refresh_token") == "" { return Err(Refuse("invalid_request")); }
      return Ok(map["grant_type" := grant, "client_id" := row.id, "refresh_token" := form["refresh_token"]]);
    } else if grant == "" {
      return Err(Refuse("invalid_request"));
    }
    return Err(Refuse("unsupported_grant_type"));
  }

  lemma WithoutResource(form: Params, row: Row, upstream: Params, resource: string)
    requires RelaysGrant(form, row, upstream)
    ensures "resource" !in upstream && upstream["resource" := resource] - {"resource"} == upstream
      && upstream - {"resource"} == upstream
  {
    hide Get;
  }

  /** Everything a token request needs to be relayed. */
  predicate Relayable(cfg: Config, form: Params, o: Outside) {
    && ValidateClientId(cfg, form).Ok?
    && var row := F.Decide(o.first, o.now, o.reply, o.later);
       row.Ok? && GrantAllowed(form, row.value) && Get(form, "resource") in {"", cfg.resourceUrl}
  }

  /**
    token: a request is relayed exactly if it is relayable, and then with the one row the gate
    returns; another resource than this server's is an invalid target.
    */
  method Token(cfg: Config, form: Params, o: Outside) returns (r: Result<Params, OAuthError>)
    ensures r.Ok? <==> Relayable(cfg, form, o)
    ensures r.Ok? ==> Relays(cfg, form, F.Decide(o.first, o.now, o.reply, o.later).value, r.value)
    ensures r.Err? && ValidateClientId(cfg, form).Ok? ==>
      match F.Decide(o.first, o.now, o.reply, o.later)
      case Err(refusal) => r.error == AsOAuthError(refusal)
      case Ok(row) => GrantAllowed(form, row) ==> r.error == Refuse("invalid_target")
  {
    hide ValidateClientId, F.Decide, RelaysGrant, GrantAllowed;
    var id := ValidateClientId(cfg, form);
    if id.Err? { return Err(id.error); }
    var read := F.FreshMapping(None, o.first, o.now, o.reply, o.later);
    if read.Err? { return Err(AsOAuthError(read.error)); }
    r := GrantUpstream(form, read.value);
    if r.Err? { return; }
    WithoutResource(form, read.value, r.value, Get(form, "resource"));
    if Get(form, "resource") != "" {
      if form["resource"] != cfg.resourceUrl { return Err(Refuse("invalid_target")); }
      r := Ok(r.value["resource" := form["resource"]]);
    }
  }

  // ---- the whole gate

  /**
    One request: its two reads see the table between the moves, and the registrar's reply is one the
    moves produced.
    */
  ghost predicate Served(p: L.Params, g1: Sys.Global, during: seq<Sys.Move>, url: string, listed: bool,
                         outcome: F.Outcome, o: Outside, cacheMax: nat)
  {
    F.Call(p, g1, during, url, listed, outcome, o.reply) &&
    var g2 := Sys.AfterMoves(p, g1, during);
    && o.first == S.Stored(g1.state, url) && o.later == S.Stored(g2.state, url)
    && St.Tempered(Sys.Serial(g1), cacheMax) && St.Tempered(Sys.Serial(g2), cacheMax)
  }

  /** The row is justified by visits `j` and `k`, and nobody else uses its app client at either read. */
  ghost predicate Sound(p: L.Params, g1: Sys.Global, during: seq<Sys.Move>, url: string, o: Outside, cacheMax: nat,
                        row: Row, j: nat, k: nat)
    requires p.Ok()
  {
    var g2 := Sys.AfterMoves(p, g1, during);
    F.Justified(g1, g2, url, o.now, cacheMax, row, j, k) && OwnedOnlyBy(g1, url, row) && OwnedOnlyBy(g2, url, row)
  }

  /** Whatever row the gate returns is sound, under any interleaving with the registrar. */
  lemma GateIsSound(p: L.Params, g1: Sys.Global, during: seq<Sys.Move>, url: string, listed: bool, outcome: F.Outcome,
                    o: Outside, row: Row, cacheMax: nat)
    returns (j: nat, k: nat)
    requires Served(p, g1, during, url, listed, outcome, o, cacheMax) && CimdUrl.IsWeb(url)
    requires F.Decide(o.first, o.now, o.reply, o.later) == Ok(row)
    ensures p.Ok() && Sound(p, g1, during, url, o, cacheMax, row, j, k)
  {
    hide F.Justified, F.Decide, F.Produced, F.Carried, OwnedOnlyBy, Sys.AfterMoves, Sys.GlobalInv, Sys.GlobalRun,
         Sys.Serial, St.Tempered, S.Stored, CimdUrl.IsWeb;
    Sys.GlobalRunKeepsInv(p, g1, during);
    AppClientHasOneOwner(p, g1, url, row);
    AppClientHasOneOwner(p, Sys.AfterMoves(p, g1, during), url, row);
    j, k := F.DecisionIsJustified(p, g1, during, url, listed, outcome, o.now, o.reply, cacheMax, row);
  }

  /**
    Under any interleaving with the registrar: what goes to Cognito carries the app client and a
    redirect URI of one row of that very client identifier, enabled at its last read and confirmed
    less than the cache maximum ago or during the call; and that app client belongs to no other URL.
    */
  lemma AuthorizedRequestIsJustified(p: L.Params, g1: Sys.Global, during: seq<Sys.Move>, listed: bool,
                                     outcome: F.Outcome, cfg: Config, params: Params, o: Outside,
                                     request: AuthorizeParams, row: Row, cacheMax: nat)
    returns (j: nat, k: nat)
    requires Served(p, g1, during, request.clientId, listed, outcome, o, cacheMax)
    requires Authorizes(cfg, params, o, request, row)
    ensures p.Ok() && Sound(p, g1, during, request.clientId, o, cacheMax, row, j, k)
    ensures Get(CognitoQuery(request, row), "client_id") == row.id
    ensures Get(CognitoQuery(request, row), "redirect_uri") in row.redirectUris
  {
    AuthorizedByDecision(cfg, params, o, request, row);
    AcceptedIsWeb(cfg, params, request.clientId);
    hide ValidateClientId;
    OnlyTheClientIdIsTranslated(cfg, params, o, request, row, "scope");
    hide *;
    j, k := GateIsSound(p, g1, during, request.clientId, listed, outcome, o, row, cacheMax);
  }

  /**
    The same end to end for token requests: code, verifier and refresh token go to the app client of
    one sound row of that client identifier.
    */
  lemma TokenRequestIsJustified(p: L.Params, g1: Sys.Global, during: seq<Sys.Move>, url: string, listed: bool,
                                outcome: F.Outcome, cfg: Config, form: Params, o: Outside, row: Row, upstream: Params,
                                cacheMax: nat)
    returns (j: nat, k: nat)
    requires Served(p, g1, during, url, listed, outcome, o, cacheMax)
    requires ValidateClientId(cfg, form) == Ok(url) && Relayable(cfg, form, o)
    requires F.Decide(o.first, o.now, o.reply, o.later) == Ok(row) && Relays(cfg, form, row, upstream)
    ensures p.Ok() && Sound(p, g1, during, url, o, cacheMax, row, j, k)
    ensures "client_id" in upstream && upstream["client_id"] == row.id
    ensures "redirect_uri" in upstream ==> upstream["redirect_uri"] in row.redirectUris
  {
    AcceptedIsWeb(cfg, form, url);
    RelayedNames(cfg, form, row, upstream);
    hide *;
    j, k := GateIsSound(p, g1, during, url, listed, outcome, o, row, cacheMax);
  }

  lemma RelayedNames(cfg: Config, form: Params, row: Row, upstream: Params)
    requires GrantAllowed(form, row) && Relays(cfg, form, row, upstream)
    ensures "client_id" in upstream && upstream["client_id"] == row.id
    ensures "redirect_uri" in upstream ==> upstream["redirect_uri"] in row.redirectUris
  {
    var core := upstream - {"resource"};
    assert "client_id" in core;
    if "redirect_uri" in upstream { assert "redirect_uri" in core; }
  }

  /**
    ... and that redirect URI was listed, and passed the URI rules, in a valid document whose
    client_id is the client identifier of the request.
    */
  lemma RedirectUriWasDocumented(p: L.Params, g: Sys.Global, url: string, row: Row, uri: string) returns (k: nat)
    requires Sys.GlobalInv(p, g) && CimdUrl.IsWeb(url) && S.Stored(g.state, url) == Some(row) && uri in row.redirectUris
    ensures H.ReadBy(Sys.Serial(g), k, url, row)
    ensures var v := Sys.Serial(g)[k].v; var d := Fetcher.Interpret(v.doc, None).document;
      d.clientId == url && uri in d.redirectUris && v.cfg.uriRule(uri)
  {
    hide Sys.GlobalInv, CimdUrl.IsWeb, Sys.Serial, D.DoAll, D.ValidRun, Bijection;
    Sys.SerialTable(p, g);
    k := H.RowsComeFromDocuments(Sys.Serial(g), url);
  }

  lemma AcceptedIsWeb(cfg: Config, params: Params, id: string)
    requires ValidateClientId(cfg, params) == Ok(id)
    ensures CimdUrl.IsWeb(id)
  {
    hide CimdUrl.PathAccepted;
  }

  predicate OwnedOnlyBy(g: Sys.Global, url: string, row: Row) {
    S.Stored(g.state, url) == Some(row) ==>
      forall u | u in g.state.table.clients && g.state.table.clients[u].id == row.id :: u == url
  }

  lemma AppClientHasOneOwner(p: L.Params, g: Sys.Global, url: string, row: Row)
    requires Sys.GlobalInv(p, g)
    ensures OwnedOnlyBy(g, url, row)
  {
    hide Sys.GlobalInv;
    Sys.SerialTable(p, g);
  }
}
