/**
 * The credential store and the re-authentication flow, both driven through the host
 * application's native bridge (`NativeRPC.call`).
 */
module Rpc {
  import opened Wrappers
  import opened JsValue
  import Jwt

  /** The storage key of the credential. */
  const TokenKey := "smartclass.token"

  /** The login script the automation bridge runs. */
  const LoginSpider := "smart_timetable_login_home"

  /** What `spider.getulpl` answers: the two session parameters. */
  datatype UlPl = UlPl(ul: string, pl: string)

  /** The arguments of a `spider.run` call, with its `params` flattened. */
  datatype SpiderRequest = SpiderRequest(
    spider: string,
    newContext: bool,
    ul: string,
    pl: string,
    redirectUrl: string,
    redirectUrlLogin: string)

  /**
   * `encodeURIComponent` and `decodeURIComponent`, left opaque; decoding may throw a
   * URIError on a malformed escape.
   */
  datatype UriCodec = UriCodec(encode: string -> string, decode: string -> Outcome<string>)

  /** One call over the native bridge. */
  datatype BridgeCall =
    | GetUlPl
    | RunSpider(request: SpiderRequest)
    | StorageSet(key: string, value: string)
    | StorageGet(key: string)

  /** The single-sign-on entry point of the campus portal. */
  const SsoIndex := "https://yjapi.lgzk.whut.edu.cn/casapi/index.php"

  /** The classroom site the portal forwards to after login. */
  const ClassroomSite := "https://classroom.lgzk.whut.edu.cn/"

  const LoginRoute := "auth/login"

  /** The portal's tenant parameter. */
  const Tenant := "&tenant_code=223"

  /** `redirect_url`: the entry point with the encoded site and route as its parameters. */
  function RedirectUrl(codec: UriCodec): string
  {
    codec.encode(SsoIndex + "?forward=" + codec.encode(ClassroomSite) + "&r=" + codec.encode(LoginRoute) + Tenant)
  }

  /** `redirect_url_login`: the same entry point with the site and route left unencoded. */
  function RedirectUrlLogin(codec: UriCodec): string
  {
    codec.encode(SsoIndex + "?forward=" + ClassroomSite + "&r=" + LoginRoute + Tenant)
  }

  /** The `spider.run` call `getToken` makes once it has the session parameters `p`. */
  function LoginRequest(p: UlPl, codec: UriCodec): SpiderRequest
  {
    SpiderRequest(LoginSpider, false, p.ul, p.pl, RedirectUrl(codec), RedirectUrlLogin(codec))
  }

  // ----- the credential store, on values -----

  /** What `getLocalToken` settles to; a key never set reads as `undefined`. */
  function StoredToken(storage: map<string, string>, online: bool): Outcome<Value>
  {
    if !online then Rejected
    else if TokenKey in storage then Resolved(Str(storage[TokenKey]))
    else Resolved(Undefined)
  }

  /** The storage after `saveLocalToken(token)`; an unavailable storage rejects and keeps its contents. */
  function SavedToken(storage: map<string, string>, online: bool, token: string): map<string, string>
  {
    if online then storage[TokenKey := token] else storage
  }

  /**
   * Round trip: once a save has succeeded (the storage is available), reading the
   * credential gives back exactly what was saved, and no other key changed.
   */
  lemma SaveThenGet(storage: map<string, string>, token: string)
    ensures StoredToken(SavedToken(storage, true, token), true) == Resolved(Str(token))
    ensures forall k :: k != TokenKey ==>
      (k in storage <==> k in SavedToken(storage, true, token))
      && (k in storage ==> SavedToken(storage, true, token)[k] == storage[k])
  {
  }

  // ----- getToken, on values -----

  /** The bridge calls one `getToken` makes, and how it settles. */
  datatype Login = Login(calls: seq<BridgeCall>, token: Outcome<string>)

  /**
   * `getToken()`: fetch the session parameters, run the login script with them, decode the
   * cookies and extract the token, save it, return it. `ulpl` and `runSpider` are the
   * bridge's answers; a rejection at any step is rethrown.
   */
  function LoginFlow(ulpl: Outcome<UlPl>, runSpider: SpiderRequest -> Outcome<string>, codec: UriCodec, online: bool): Login
  {
    match ulpl
    case Rejected => Login([GetUlPl], Rejected)
    case Resolved(p) =>
      var request := LoginRequest(p, codec);
      match runSpider(request)
      case Rejected => Login([GetUlPl, RunSpider(request)], Rejected)
      case Resolved(cookies) =>
        match codec.decode(cookies)
        case Rejected => Login([GetUlPl, RunSpider(request)], Rejected)
        case Resolved(text) =>
          var token := Jwt.ExtractToken(text);
          Login([GetUlPl, RunSpider(request), StorageSet(TokenKey, token)], if online then Resolved(token) else Rejected)
  }

  /**
   * `spider.run` gets the login script, `newContext: false`, and `ul`/`pl` exactly as
   * `spider.getulpl` answered them.
   */
  lemma LoginPassesSessionParameters(ulpl: Outcome<UlPl>, runSpider: SpiderRequest -> Outcome<string>, codec: UriCodec, online: bool)
    ensures var calls := LoginFlow(ulpl, runSpider, codec, online).calls;
      forall i | 0 <= i < |calls| && calls[i].RunSpider? ::
        && ulpl.Resolved?
        && calls[i].request.spider == LoginSpider
        && !calls[i].request.newContext
        && calls[i].request.ul == ulpl.value.ul && calls[i].request.pl == ulpl.value.pl
  {
  }

  /**
   * The token returned is the one written under `smartclass.token`, by the last call before
   * returning, and it is what extraction made of the decoded cookies: "" or a JWT-shaped
   * substring of them.
   */
  lemma LoginSavesBeforeReturning(ulpl: Outcome<UlPl>, runSpider: SpiderRequest -> Outcome<string>, codec: UriCodec, online: bool)
    requires LoginFlow(ulpl, runSpider, codec, online).token.Resolved?
    ensures online && ulpl.Resolved?
    ensures var request := LoginRequest(ulpl.value, codec);
      && runSpider(request).Resolved? && codec.decode(runSpider(request).value).Resolved?
      && var token := Jwt.ExtractToken(codec.decode(runSpider(request).value).value);
         && LoginFlow(ulpl, runSpider, codec, online).token.value == token
         && LoginFlow(ulpl, runSpider, codec, online).calls == [GetUlPl, RunSpider(request), StorageSet(TokenKey, token)]
         && (token == "" || Jwt.JwtShaped(token))
  {
    var request := LoginRequest(ulpl.value, codec);
    var text := codec.decode(runSpider(request).value).value;
    if Jwt.ExtractToken(text) != "" {
      var a, e := Jwt.ExtractTokenFound(text);
    }
  }

  /**
   * `getToken` rejects exactly when one of its steps does, and retries nothing:
   * `spider.getulpl` is called once, first, and at most two calls follow it.
   */
  lemma LoginFailsWithoutRetry(ulpl: Outcome<UlPl>, runSpider: SpiderRequest -> Outcome<string>, codec: UriCodec, online: bool)
    ensures var run := LoginFlow(ulpl, runSpider, codec, online);
      run.token.Rejected? <==>
        || ulpl.Rejected?
        || runSpider(LoginRequest(ulpl.value, codec)).Rejected?
        || codec.decode(runSpider(LoginRequest(ulpl.value, codec)).value).Rejected?
        || !online
    ensures var run := LoginFlow(ulpl, runSpider, codec, online);
      && 1 <= |run.calls| <= 3 && run.calls[0] == GetUlPl
      && forall i | 1 <= i < |run.calls| :: !run.calls[i].GetUlPl?
  {
    match ulpl
    case Rejected =>
    case Resolved(p) =>
      var request := LoginRequest(p, codec);
      match runSpider(request)
      case Rejected =>
      case Resolved(cookies) =>
        match codec.decode(cookies)
        case Rejected =>
        case Resolved(text) =>
          var token := Jwt.ExtractToken(text);
          assert LoginFlow(ulpl, runSpider, codec, online).calls == [GetUlPl, RunSpider(request), StorageSet(TokenKey, token)];
  }

  /** The host application: its durable storage and the log of bridge calls it has served. */
  class NativeHost {
    var storage: map<string, string>
    /** Whether `storage.get` and `storage.set` succeed; when false they reject. */
    var storageOnline: bool
    var calls: seq<BridgeCall>

    constructor (storage: map<string, string>, storageOnline: bool)
      ensures this.storage == storage && this.storageOnline == storageOnline && calls == []
    {
      this.storage := storage;
      this.storageOnline := storageOnline;
      calls := [];
    }

    /** `saveLocalToken(token)`: a `storage.set` under `smartclass.token`; a failure is rethrown. */
    method SaveLocalToken(token: string) returns (r: Outcome<()>)
      modifies this
      ensures calls == old(calls) + [StorageSet(TokenKey, token)]
      ensures storageOnline == old(storageOnline)
      ensures r.Resolved? <==> storageOnline
      ensures storage == SavedToken(old(storage), storageOnline, token)
    {
      calls := calls + [StorageSet(TokenKey, token)];
      if storageOnline {
        storage := storage[TokenKey := token];
        r := Resolved(());
      } else {
        r := Rejected;
      }
    }

    /** `getLocalToken()`: a `storage.get` of `smartclass.token`; a failure is rethrown. */
    method GetLocalToken() returns (r: Outcome<Value>)
      modifies this
      ensures calls == old(calls) + [StorageGet(TokenKey)]
      ensures storage == old(storage) && storageOnline == old(storageOnline)
      ensures r == StoredToken(storage, storageOnline)
    {
      calls := calls + [StorageGet(TokenKey)];
      if !storageOnline {
        r := Rejected;
      } else if TokenKey in storage {
        r := Resolved(Str(storage[TokenKey]));
      } else {
        r := Resolved(Undefined);
      }
    }

    /**
     * `getToken()`, with the bridge's answers `ulpl` (to `spider.getulpl`) and `runSpider`
     * (the cookies `spider.run` answers for a request).
     */
    method GetToken(ulpl: Outcome<UlPl>, runSpider: SpiderRequest -> Outcome<string>, codec: UriCodec) returns (r: Outcome<string>)
      modifies this
      ensures var run := LoginFlow(ulpl, runSpider, codec, old(storageOnline));
        calls == old(calls) + run.calls && r == run.token
      ensures storageOnline == old(storageOnline)
      ensures storage == if r.Resolved? then SavedToken(old(storage), true, r.value) else old(storage)
    {
      var redirectUrl := RedirectUrl(codec);
      var redirectUrlLogin := RedirectUrlLogin(codec);
      calls := calls + [GetUlPl];
      if ulpl.Rejected? {
        return Rejected;
      }
      var request := SpiderRequest(LoginSpider, false, ulpl.value.ul, ulpl.value.pl, redirectUrl, redirectUrlLogin);
      calls := calls + [RunSpider(request)];
      var spiderResponse := runSpider(request);
      if spiderResponse.Rejected? {
        return Rejected;
      }
      var decoded := codec.decode(spiderResponse.value);
      if decoded.Rejected? {
        return Rejected;
      }
      var token := Jwt.ExtractToken(decoded.value);
      var saved := SaveLocalToken(token);
      if saved.Rejected? {
        return Rejected;
      }
      r := Resolved(token);
    }
  }
}
