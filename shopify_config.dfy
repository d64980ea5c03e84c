/** The Shopify helpers of `config/shopify.js`: the install URL, the HMAC checks of the OAuth
    callback and of webhooks, the per-tenant REST client (single requests, `Link` header
    parsing, forward pagination) and webhook registration.

    HMAC-SHA256 with its hex or base64 digest, `randomBytes` and the form encoding of one
    `URLSearchParams` value are parameters. The network is a sequence of replies: the `i`-th
    request gets the `i`-th reply, and a request with no reply left fails like a rejected
    `fetch`. */
module ShopifyConfig {
  import opened Base
  import opened Strings
  import opened Sorting

  // ---------------------------------------------------------------------------
  // configuration
  // ---------------------------------------------------------------------------

  /** `process.env`; a variable that is not set is absent. */
  type Env = map<string, string>

  /** `getEnv(k)`: the value, or an error when it is unset or empty. */
  function GetEnv(env: Env, k: string): (r: Result<string>)
    ensures r.Ok? <==> k in env && env[k] != ""
    ensures r.Ok? ==> r.value == env[k] && r.value != ""
    ensures r.Err? ==> r.msg == "Missing env: " + k
  {
    if k in env && env[k] != "" then Ok(env[k]) else Err("Missing env: " + k)
  }

  const DefaultApiVersion := "2024-10"

  function ApiVersion(env: Env): (v: string)
    ensures v != ""
    ensures GetEnv(env, "SHOPIFY_API_VERSION").Ok? ==> v == env["SHOPIFY_API_VERSION"]
    ensures GetEnv(env, "SHOPIFY_API_VERSION").Err? ==> v == DefaultApiVersion
  {
    var v := GetEnv(env, "SHOPIFY_API_VERSION");
    if v.Ok? then v.value else DefaultApiVersion
  }

  // ---------------------------------------------------------------------------
  // query strings
  // ---------------------------------------------------------------------------

  /** The entries of a `URLSearchParams`, in order. */
  type Params = seq<(string, string)>

  /** One `name=value` entry with the value form-encoded by `enc`. The names used by the
      backend are plain ASCII words that the encoding leaves as they are. */
  function Entry(p: (string, string), enc: string -> string): string {
    p.0 + "=" + enc(p.1)
  }

  function Entries(ps: Params, enc: string -> string): (r: seq<string>)
    ensures |r| == |ps|
    ensures forall i :: 0 <= i < |ps| ==> r[i] == Entry(ps[i], enc)
  {
    seq(|ps|, i requires 0 <= i < |ps| => Entry(ps[i], enc))
  }

  /** `params.toString()` */
  function FormEncode(ps: Params, enc: string -> string): string {
    Join(Entries(ps, enc), "&")
  }

  /** The (still encoded) value of the first entry named `name` in a query string. */
  function QueryParam(q: string, name: string): Option<string> {
    FindParam(Split(q, '&'), name)
  }

  function FindParam(entries: seq<string>, name: string): Option<string>
    decreases |entries|
  {
    if entries == [] then None
    else
      var kv := Split(entries[0], '=');
      if kv[0] == name then Some(Join(kv[1..], "=")) else FindParam(entries[1..], name)
  }

  /** The form encoding never produces the two delimiters of a query string. */
  ghost predicate FormSafe(enc: string -> string) {
    forall s :: '&' !in enc(s) && '=' !in enc(s)
  }

  predicate PlainNames(ps: Params) {
    forall j :: 0 <= j < |ps| ==> '&' !in ps[j].0 && '=' !in ps[j].0
  }

  lemma EntrySplit(p: (string, string), enc: string -> string)
    requires FormSafe(enc) && '=' !in p.0
    ensures Split(Entry(p, enc), '=') == [p.0, enc(p.1)]
  {
    SplitAfterFirst(p.0, enc(p.1), '=');
    SplitWithoutSep(enc(p.1), '=');
  }

  lemma {:induction false} FindEntries(ps: Params, enc: string -> string, i: nat)
    requires FormSafe(enc) && PlainNames(ps)
    requires i < |ps|
    requires forall j :: 0 <= j < i ==> ps[j].0 != ps[i].0
    ensures FindParam(Entries(ps, enc), ps[i].0) == Some(enc(ps[i].1))
    decreases i
  {
    var es := Entries(ps, enc);
    EntrySplit(ps[0], enc);
    assert es[0] == Entry(ps[0], enc);
    if i > 0 {
      var rest := ps[1..];
      assert Entries(rest, enc) == es[1..] by {
        forall j | 0 <= j < |rest| ensures Entries(rest, enc)[j] == es[1..][j] {
          assert rest[j] == ps[j + 1];
        }
      }
      assert PlainNames(rest) by {
        forall j | 0 <= j < |rest| ensures '&' !in rest[j].0 && '=' !in rest[j].0 {
          assert rest[j] == ps[j + 1];
        }
      }
      assert rest[i - 1] == ps[i];
      forall j | 0 <= j < i - 1 ensures rest[j].0 != rest[i - 1].0 {
        assert rest[j] == ps[j + 1];
      }
      FindEntries(rest, enc, i - 1);
      assert ps[0].0 != ps[i].0;
    }
  }

  /** Reading a parameter back from a form-encoded query string gives its encoded value
      (the first entry of that name wins). */
  lemma FormEncodeLookup(ps: Params, enc: string -> string, i: nat)
    requires FormSafe(enc) && PlainNames(ps)
    requires i < |ps|
    requires forall j :: 0 <= j < i ==> ps[j].0 != ps[i].0
    ensures QueryParam(FormEncode(ps, enc), ps[i].0) == Some(enc(ps[i].1))
  {
    var es := Entries(ps, enc);
    SplitJoin(es, '&');
    FindEntries(ps, enc, i);
  }

  function WithoutName(ps: Params, k: string): (r: Params)
    ensures forall p :: p in r <==> p in ps && p.0 != k
    decreases |ps|
  {
    if ps == [] then []
    else if ps[0].0 == k then WithoutName(ps[1..], k)
    else [ps[0]] + WithoutName(ps[1..], k)
  }

  function ParamValue(ps: Params, k: string): Option<string>
    decreases |ps|
  {
    if ps == [] then None else if ps[0].0 == k then Some(ps[0].1) else ParamValue(ps[1..], k)
  }

  /** `params.set(k, v)`: the first entry named `k` takes the value `v` and the other
      entries of that name are deleted; without one, the entry is appended. */
  function SetParam(ps: Params, k: string, v: string): (r: Params)
    ensures ParamValue(r, k) == Some(v)
    ensures (k, v) in r && forall p :: p in r && p.0 == k ==> p == (k, v)
    ensures WithoutName(r, k) == WithoutName(ps, k)
    decreases |ps|
  {
    if ps == [] then [(k, v)]
    else if ps[0].0 == k then
      var rest := WithoutName(ps[1..], k);
      WithoutNameTwice(ps[1..], k);
      assert ([(k, v)] + rest)[1..] == rest;
      [(k, v)] + rest
    else
      var rest := SetParam(ps[1..], k, v);
      assert ([ps[0]] + rest)[1..] == rest;
      [ps[0]] + rest
  }

  lemma {:induction false} WithoutNameTwice(ps: Params, k: string)
    ensures WithoutName(WithoutName(ps, k), k) == WithoutName(ps, k)
    decreases |ps|
  {
    if ps != [] {
      WithoutNameTwice(ps[1..], k);
      if ps[0].0 != k {
        assert ([ps[0]] + WithoutName(ps[1..], k))[1..] == WithoutName(ps[1..], k);
      }
    }
  }

  // ---------------------------------------------------------------------------
  // install URL
  // ---------------------------------------------------------------------------

  const ShopSuffix := ".myshopify.com"

  datatype InstallUrl = InstallUrl(url: string, state: string)

  function AuthorizeParams(clientId: string, scopes: string, redirectUri: string, nonce: string): Params {
    [("client_id", clientId), ("scope", scopes), ("redirect_uri", redirectUri), ("state", nonce)]
  }

  /** `buildInstallUrl(shop)`, `random16` being the 16 bytes of `randomBytes(16)`. */
  function BuildInstallUrl(shop: string, env: Env, random16: seq<byte>, enc: string -> string)
    : (r: Result<InstallUrl>)
    requires |random16| == 16
    ensures !EndsWith(shop, ShopSuffix) ==> r == Err("Invalid shop domain")
    ensures EndsWith(shop, ShopSuffix) && GetEnv(env, "SHOPIFY_API_KEY").Err? ==>
              r == Err(GetEnv(env, "SHOPIFY_API_KEY").msg)
    ensures r.Ok? <==>
              && EndsWith(shop, ShopSuffix)
              && GetEnv(env, "SHOPIFY_API_KEY").Ok?
              && GetEnv(env, "SHOPIFY_SCOPES").Ok?
              && GetEnv(env, "SHOPIFY_REDIRECT_URI").Ok?
    ensures r.Ok? ==>
              && r.value.state == Hex(random16)
              && |r.value.state| == 32 && IsHex(r.value.state)
              && r.value.url == "https://" + shop + "/admin/oauth/authorize?" +
                   FormEncode(AuthorizeParams(env["SHOPIFY_API_KEY"], env["SHOPIFY_SCOPES"],
                                              env["SHOPIFY_REDIRECT_URI"], r.value.state), enc)
  {
    if !EndsWith(shop, ShopSuffix) then Err("Invalid shop domain")
    else
      var clientId := GetEnv(env, "SHOPIFY_API_KEY");
      if clientId.Err? then Err(clientId.msg)
      else
        var scopes := GetEnv(env, "SHOPIFY_SCOPES");
        if scopes.Err? then Err(scopes.msg)
        else
          var redirectUri := GetEnv(env, "SHOPIFY_REDIRECT_URI");
          if redirectUri.Err? then Err(redirectUri.msg)
          else
            var nonce := Hex(random16);
            var params := AuthorizeParams(clientId.value, scopes.value, redirectUri.value, nonce);
            Ok(InstallUrl("https://" + shop + "/admin/oauth/authorize?" + FormEncode(params, enc), nonce))
  }

  /** The returned `state` is the one carried by the URL, next to the client id, scopes and
      redirect URI. */
  lemma InstallUrlCarriesState(clientId: string, scopes: string, redirectUri: string,
                               nonce: string, enc: string -> string)
    requires FormSafe(enc)
    ensures var q := FormEncode(AuthorizeParams(clientId, scopes, redirectUri, nonce), enc);
            && QueryParam(q, "state") == Some(enc(nonce))
            && QueryParam(q, "client_id") == Some(enc(clientId))
            && QueryParam(q, "scope") == Some(enc(scopes))
            && QueryParam(q, "redirect_uri") == Some(enc(redirectUri))
  {
    var ps := AuthorizeParams(clientId, scopes, redirectUri, nonce);
    FormEncodeLookup(ps, enc, 0);
    FormEncodeLookup(ps, enc, 1);
    FormEncodeLookup(ps, enc, 2);
    FormEncodeLookup(ps, enc, 3);
  }

  // ---------------------------------------------------------------------------
  // OAuth callback HMAC
  // ---------------------------------------------------------------------------

  /** A parsed query-string value: a string, or a list for a repeated name. */
  datatype QValue = QStr(s: string) | QList(items: seq<string>)

  /** `req.query`: its own keys in order, each at most once. */
  type Query = seq<(string, QValue)>

  predicate DistinctKeys(q: Query) {
    forall i, j :: 0 <= i < j < |q| ==> q[i].0 != q[j].0
  }

  function Lookup(q: Query, k: string): (r: Option<QValue>)
    ensures r.Some? ==> (k, r.value) in q
    ensures r.None? ==> forall i :: 0 <= i < |q| ==> q[i].0 != k
    decreases |q|
  {
    if q == [] then None else if q[0].0 == k then Some(q[0].1) else Lookup(q[1..], k)
  }

  lemma {:induction false} LookupMember(q: Query, k: string, v: QValue)
    requires DistinctKeys(q) && (k, v) in q
    ensures Lookup(q, k) == Some(v)
    decreases |q|
  {
    if q[0] != (k, v) {
      assert (k, v) in q[1..];
      LookupMember(q[1..], k, v);
    }
  }

  function Keys(q: Query): (r: seq<string>)
    ensures |r| == |q| && forall i :: 0 <= i < |q| ==> r[i] == q[i].0
  {
    seq(|q|, i requires 0 <= i < |q| => q[i].0)
  }

  /** `const { hmac, signature, ...rest } = q`: the entries whose key is not dropped. */
  function Without(q: Query, drop: set<string>): (r: Query)
    ensures forall p :: p in r <==> p in q && p.0 !in drop
    ensures DistinctKeys(q) ==> DistinctKeys(r)
    decreases |q|
  {
    if q == [] then []
    else
      var rest := Without(q[1..], drop);
      if q[0].0 in drop then rest
      else
        assert forall p :: p in rest ==> p in q[1..];
        [q[0]] + rest
  }

  /** `${v}` of a query value: arrays joined with commas, nothing escaped. */
  function Render(v: QValue): string {
    match v
    case QStr(s) => s
    case QList(items) => Join(items, ",")
  }

  /** A query value read with `req.query.k`: truthy unless missing or the empty string (an
      array always is). */
  predicate QTruthy(v: Option<QValue>) {
    v.Some? && (v.value.QStr? ==> v.value.s != "")
  }

  /** `String(req.query.k || '')` */
  function QueryText(q: Query, k: string): (r: string)
    ensures QTruthy(Lookup(q, k)) ==> r == Render(Lookup(q, k).value)
    ensures !QTruthy(Lookup(q, k)) ==> r == ""
  {
    if QTruthy(Lookup(q, k)) then Render(Lookup(q, k).value) else ""
  }

  function RenderField(q: Query, k: string): string {
    match Lookup(q, k)
    case Some(v) => Render(v)
    case None => ""
  }

  const Unsigned := {"hmac", "signature"}

  /** The message Shopify signs: every key but `hmac` and `signature`, sorted, rendered as
      `k=v` and joined with '&'. */
  function OAuthMessage(q: Query): (r: string)
    ensures r == "" <==> forall p :: p in q ==> p.0 in Unsigned
  {
    var rest := Without(q, Unsigned);
    var keys := SortStrings(Keys(rest));
    SignedMessageEmpty(q, rest, keys);
    Join(Rendered(rest, keys), "&")
  }

  /** Every signed entry renders as a non-empty `k=v`, so the message is empty exactly when
      nothing but `hmac` and `signature` is left to sign. */
  lemma SignedMessageEmpty(q: Query, rest: Query, keys: seq<string>)
    requires rest == Without(q, Unsigned) && keys == SortStrings(Keys(rest))
    ensures Join(Rendered(rest, keys), "&") == "" <==> forall p :: p in q ==> p.0 in Unsigned
  {
    assert |keys| == |rest| by {
      assert |multiset(keys)| == |multiset(Keys(rest))|;
    }
    if rest != [] {
      assert rest[0] in q && rest[0].0 !in Unsigned;
      JoinStartsWith(Rendered(rest, keys), "&");
    } else {
      forall p | p in q ensures p.0 in Unsigned {
        assert p !in rest;
      }
    }
  }

  function Rendered(rest: Query, keys: seq<string>): (r: seq<string>)
    ensures |r| == |keys|
  {
    seq(|keys|, i requires 0 <= i < |keys| => keys[i] + "=" + RenderField(rest, keys[i]))
  }

  lemma {:induction false} WithoutCount(q: Query, drop: set<string>, p: (string, QValue))
    ensures multiset(Without(q, drop))[p] == if p.0 in drop then 0 else multiset(q)[p]
    decreases |q|
  {
    if q != [] {
      WithoutCount(q[1..], drop, p);
      assert q == [q[0]] + q[1..];
    }
  }

  lemma WithoutPermutes(q1: Query, q2: Query, drop: set<string>)
    requires multiset(q1) == multiset(q2)
    ensures multiset(Without(q1, drop)) == multiset(Without(q2, drop))
  {
    forall p ensures multiset(Without(q1, drop))[p] == multiset(Without(q2, drop))[p] {
      WithoutCount(q1, drop, p);
      WithoutCount(q2, drop, p);
    }
  }

  lemma {:induction false} DistinctKeyCount(q: Query, k: string)
    requires DistinctKeys(q)
    ensures multiset(Keys(q))[k] == if k in Keys(q) then 1 else 0
    decreases |q|
  {
    if q != [] {
      DistinctKeyCount(q[1..], k);
      assert Keys(q) == [q[0].0] + Keys(q[1..]);
    }
  }

  lemma KeyIn(r1: Query, r2: Query, k: string)
    requires forall p :: p in r1 ==> p in r2
    ensures k in Keys(r1) ==> k in Keys(r2)
  {
    if k in Keys(r1) {
      var i :| 0 <= i < |r1| && r1[i].0 == k;
      assert r1[i] in r2;
      var j :| 0 <= j < |r2| && r2[j] == r1[i];
      assert Keys(r2)[j] == k;
    }
  }

  lemma KeysPermute(r1: Query, r2: Query)
    requires DistinctKeys(r1) && DistinctKeys(r2)
    requires multiset(r1) == multiset(r2)
    ensures multiset(Keys(r1)) == multiset(Keys(r2))
  {
    assert forall p :: p in r1 <==> p in multiset(r1);
    assert forall p :: p in r2 <==> p in multiset(r2);
    forall k ensures multiset(Keys(r1))[k] == multiset(Keys(r2))[k] {
      DistinctKeyCount(r1, k);
      DistinctKeyCount(r2, k);
      KeyIn(r1, r2, k);
      KeyIn(r2, r1, k);
    }
  }

  lemma LookupSame(r1: Query, r2: Query, k: string)
    requires DistinctKeys(r2)
    requires forall p :: p in r1 ==> p in r2
    ensures Lookup(r1, k).Some? ==> Lookup(r2, k) == Lookup(r1, k)
  {
    if Lookup(r1, k).Some? {
      LookupMember(r2, k, Lookup(r1, k).value);
    }
  }

  lemma RenderedPermute(r1: Query, r2: Query, keys: seq<string>)
    requires DistinctKeys(r1) && DistinctKeys(r2)
    requires multiset(r1) == multiset(r2)
    ensures Rendered(r1, keys) == Rendered(r2, keys)
  {
    assert forall p :: p in r1 <==> p in multiset(r1);
    assert forall p :: p in r2 <==> p in multiset(r2);
    forall i | 0 <= i < |keys| ensures Rendered(r1, keys)[i] == Rendered(r2, keys)[i] {
      LookupSame(r1, r2, keys[i]);
      LookupSame(r2, r1, keys[i]);
    }
  }

  /** The signed message depends only on the entries of the query, not on their order. */
  lemma OAuthMessageOrderIndependent(q1: Query, q2: Query)
    requires DistinctKeys(q1) && DistinctKeys(q2)
    requires multiset(q1) == multiset(q2)
    ensures OAuthMessage(q1) == OAuthMessage(q2)
  {
    var r1 := Without(q1, Unsigned);
    var r2 := Without(q2, Unsigned);
    WithoutPermutes(q1, q2, Unsigned);
    KeysPermute(r1, r2);
    var keys1 := SortStrings(Keys(r1));
    var keys2 := SortStrings(Keys(r2));
    StrLeIsTotalOrder();
    SortedUnique(keys1, keys2, StrLe);
    RenderedPermute(r1, r2, keys1);
  }

  lemma {:induction false} WithoutTwice(q: Query, drop: set<string>)
    ensures Without(Without(q, drop), drop) == Without(q, drop)
    decreases |q|
  {
    if q != [] {
      WithoutTwice(q[1..], drop);
      if q[0].0 !in drop {
        assert ([q[0]] + Without(q[1..], drop))[1..] == Without(q[1..], drop);
      }
    }
  }

  /** The `hmac` and `signature` entries never reach the signed message. */
  lemma OAuthMessageIgnoresUnsigned(q: Query)
    ensures OAuthMessage(q) == OAuthMessage(Without(q, Unsigned))
  {
    WithoutTwice(q, Unsigned);
  }

  /** `verifyOAuthCallbackHmac(q)`, `hmacHex(secret, message)` being the hex HMAC-SHA256.
      A falsy `hmac` gives false; otherwise a missing secret, or a supplied `hmac` whose
      UTF-8 length differs from the digest's, throws. */
  function VerifyOAuthCallbackHmac(q: Query, env: Env, hmacHex: (string, string) -> string)
    : (r: Result<bool>)
    ensures Lookup(q, "hmac") in {None, Some(QStr(""))} ==> r == Ok(false)
    ensures Lookup(q, "hmac") !in {None, Some(QStr(""))} && GetEnv(env, "SHOPIFY_API_SECRET").Err? ==>
              r == Err(GetEnv(env, "SHOPIFY_API_SECRET").msg)
    ensures Lookup(q, "hmac").Some? && Lookup(q, "hmac").value.QStr? &&
            Lookup(q, "hmac") != Some(QStr("")) && GetEnv(env, "SHOPIFY_API_SECRET").Ok? ==>
              r == BufferEquals(hmacHex(env["SHOPIFY_API_SECRET"], OAuthMessage(q)),
                                Lookup(q, "hmac").value.s)
    ensures r == Ok(true) ==>
              Lookup(q, "hmac") == Some(QStr(hmacHex(env["SHOPIFY_API_SECRET"], OAuthMessage(q))))
  {
    match Lookup(q, "hmac")
    case None => Ok(false)
    case Some(h) =>
      if h == QStr("") then Ok(false)
      else
        var secret := GetEnv(env, "SHOPIFY_API_SECRET");
        if secret.Err? then Err(secret.msg)
        else
          var digest := hmacHex(secret.value, OAuthMessage(q));
          match h
          case QStr(s) => BufferEquals(digest, s)
          case QList(items) =>
            if |items| != Utf8Length(digest) then Err(LengthMismatch) else Ok(false)
  }

  /** The digest is always 64 lower-case hex characters. */
  ghost predicate HexDigests(hmacHex: (string, string) -> string) {
    forall k, m :: |hmacHex(k, m)| == 64 && IsHex(hmacHex(k, m))
  }

  /** A supplied `hmac` string whose UTF-8 length is not 64 makes the check throw rather
      than answer false. */
  lemma OAuthHmacLengthMismatchThrows(q: Query, env: Env, hmacHex: (string, string) -> string, h: string)
    requires HexDigests(hmacHex)
    requires Lookup(q, "hmac") == Some(QStr(h)) && h != ""
    requires GetEnv(env, "SHOPIFY_API_SECRET").Ok?
    requires Utf8Length(h) != 64
    ensures VerifyOAuthCallbackHmac(q, env, hmacHex) == Err(LengthMismatch)
  {
    var d := hmacHex(env["SHOPIFY_API_SECRET"], OAuthMessage(q));
    assert forall i :: 0 <= i < |d| ==> d[i] as int < 0x80 by {
      assert IsHex(d);
    }
    Utf8LengthAscii(d);
  }

  // ---------------------------------------------------------------------------
  // webhook HMAC
  // ---------------------------------------------------------------------------

  /** `verifyWebhookHmac(raw, header)`, `hmacBase64(secret, raw)` being the base64
      HMAC-SHA256 of the raw body. The length mismatch is caught, so the answer is whether
      the header equals the digest. */
  function VerifyWebhookHmac(raw: seq<byte>, header: string, env: Env,
                             hmacBase64: (string, seq<byte>) -> string): (r: Result<bool>)
    ensures r.Err? <==> header != "" && GetEnv(env, "SHOPIFY_API_SECRET").Err?
    ensures r.Err? ==> r.msg == "Missing env: SHOPIFY_API_SECRET"
    ensures r.Ok? ==> (r.value <==> header != "" && header == hmacBase64(env["SHOPIFY_API_SECRET"], raw))
  {
    if header == "" then Ok(false)
    else
      var secret := GetEnv(env, "SHOPIFY_API_SECRET");
      if secret.Err? then Err(secret.msg)
      else
        match BufferEquals(hmacBase64(secret.value, raw), header)
        case Err(_) => Ok(false)
        case Ok(b) => Ok(b)
  }

  // ---------------------------------------------------------------------------
  // REST client
  // ---------------------------------------------------------------------------

  datatype Client = Client(shop: string, accessToken: string, base: string)

  const ClientRequired := "shop and accessToken are required"

  /** `buildShopifyClient({shop, accessToken})`; an empty string stands for a missing value. */
  function BuildShopifyClient(shop: string, accessToken: string, env: Env): (r: Result<Client>)
    ensures r.Err? <==> shop == "" || accessToken == ""
    ensures r.Err? ==> r.msg == ClientRequired
    ensures r.Ok? ==> r.value == Client(shop, accessToken, "https://" + shop + "/admin/api/" + ApiVersion(env))
  {
    if shop == "" || accessToken == "" then Err(ClientRequired)
    else Ok(Client(shop, accessToken, "https://" + shop + "/admin/api/" + ApiVersion(env)))
  }

  /** The answer to one request: a status, a JSON body, the body as text and the `link`
      header ("" when absent); or no answer, when `fetch` rejects with `error`. */
  datatype Reply<B> = Reply(status: int, body: B, text: string, link: string) | NoReply(error: string)

  const FetchFailed := "fetch failed"

  /** `res.ok` */
  predicate IsOk(status: int) { 200 <= status < 300 }

  function FailedMessage(verb: string, path: string, status: int, text: string): string {
    "Shopify " + verb + " " + path + " failed (" + IntToDecimal(status) + "): " + text
  }

  datatype Response<B> = Response(data: B, link: Option<string>)

  /** `request(path, {method})`: the body and `link` header of a 2xx reply, an error naming
      the method, path and status otherwise. */
  function Request<B>(verb: string, path: string, reply: Reply<B>): (r: Result<Response<B>>)
    ensures r.Ok? <==> reply.Reply? && IsOk(reply.status)
    ensures r.Ok? ==> r.value.data == reply.body
    ensures r.Ok? ==> (r.value.link.None? <==> reply.link == "")
    ensures r.Ok? && reply.link != "" ==> r.value.link == Some(reply.link)
    ensures reply.NoReply? ==> r == Err(reply.error)
    ensures reply.Reply? && !IsOk(reply.status) ==>
              r == Err(FailedMessage(verb, path, reply.status, reply.text))
  {
    match reply
    case NoReply(e) => Err(e)
    case Reply(status, body, text, link) =>
      if !IsOk(status) then Err(FailedMessage(verb, path, status, text))
      else Ok(Response(body, if link == "" then None else Some(link)))
  }

  /** `exchangeCodeForToken(shop, code)`: both credentials must be configured; a non-2xx
      reply throws with its status and text. */
  function ExchangeCodeForToken<B>(env: Env, reply: Reply<B>): (r: Result<B>)
    ensures GetEnv(env, "SHOPIFY_API_KEY").Err? ==> r == Err(GetEnv(env, "SHOPIFY_API_KEY").msg)
    ensures r.Ok? <==> GetEnv(env, "SHOPIFY_API_KEY").Ok? && GetEnv(env, "SHOPIFY_API_SECRET").Ok?
                       && reply.Reply? && IsOk(reply.status)
    ensures r.Ok? ==> r.value == reply.body
    ensures GetEnv(env, "SHOPIFY_API_KEY").Ok? && GetEnv(env, "SHOPIFY_API_SECRET").Ok? &&
            reply.Reply? && !IsOk(reply.status) ==>
              r == Err("Token exchange failed (" + IntToDecimal(reply.status) + "): " + reply.text)
  {
    var clientId := GetEnv(env, "SHOPIFY_API_KEY");
    if clientId.Err? then Err(clientId.msg)
    else
      var secret := GetEnv(env, "SHOPIFY_API_SECRET");
      if secret.Err? then Err(secret.msg)
      else
        match reply
        case NoReply(e) => Err(e)
        case Reply(status, body, text, _) =>
          if !IsOk(status) then Err("Token exchange failed (" + IntToDecimal(status) + "): " + text)
          else Ok(body)
  }

  // ---------------------------------------------------------------------------
  // Link header
  // ---------------------------------------------------------------------------

  const RelNext := "rel=\"next\""

  /** The first match of `/<([^>]+)>/`: the text between a '<' and the next '>', which must
      not be empty. */
  function AngleTarget(s: string): (r: Option<string>)
    ensures r.Some? ==> r.value != "" && '>' !in r.value
    decreases |s|
  {
    if s == [] then None
    else if s[0] == '<' && '>' in s[1..] && s[1] != '>' then
      var u := Split(s[1..], '>')[0];
      assert u != "" by {
        var parts := Split(s[1..], '>');
        assert Join(parts, ">")[0] == s[1];
        if |parts| > 1 {
          assert Join(parts, ">") == parts[0] + ">" + Join(parts[1..], ">");
        }
      }
      Some(u)
    else AngleTarget(s[1..])
  }

  /** The target of one comma-separated link entry when its parameters mention
      `rel="next"` and its URL part holds `<...>`. */
  function NextOfEntry(entry: string): (r: Option<string>)
    ensures r.Some? ==> r.value != "" && '>' !in r.value
  {
    var fields := Split(entry, ';');
    if |fields| >= 2 && Contains(Trim(fields[1]), RelNext) then AngleTarget(Trim(fields[0]))
    else None
  }

  function FirstNext(entries: seq<string>): (r: Option<string>)
    ensures r.Some? ==> r.value != "" && '>' !in r.value
    decreases |entries|
  {
    if entries == [] then None
    else if NextOfEntry(entries[0]).Some? then NextOfEntry(entries[0])
    else FirstNext(entries[1..])
  }

  /** `parseNextLink(header)`: none for an absent header, otherwise the first `rel="next"`
      entry's URL. */
  function ParseNextLink(header: string): (r: Option<string>)
    ensures header == "" ==> r.None?
    ensures r.Some? ==> r.value != "" && '>' !in r.value
  {
    if header == "" then None else FirstNext(Split(header, ','))
  }

  /** Of the comma-separated entries `parseNextLink` scans, the URL followed is that of the
      first entry naming `rel="next"`, and there is none exactly when no entry does. */
  lemma FirstNextEntry(entries: seq<string>)
    ensures && (FirstNext(entries).None? <==> forall i :: 0 <= i < |entries| ==> NextOfEntry(entries[i]).None?)
            && (FirstNext(entries).Some? ==>
                  exists i :: 0 <= i < |entries| && NextOfEntry(entries[i]) == FirstNext(entries) &&
                              forall j :: 0 <= j < i ==> NextOfEntry(entries[j]).None?)
  {
    FirstNextIsFirstMatch(entries);
    FirstMatchNone(entries, NextOfEntry);
    if FirstNext(entries).Some? {
      FirstMatchSome(entries, NextOfEntry);
    }
  }

  /** The first entry `f` maps to a value, scanning in order. */
  function FirstMatch(xs: seq<string>, f: string -> Option<string>): Option<string>
    decreases |xs|
  {
    if xs == [] then None
    else if f(xs[0]).Some? then f(xs[0])
    else FirstMatch(xs[1..], f)
  }

  lemma {:induction false} FirstNextIsFirstMatch(entries: seq<string>)
    ensures FirstNext(entries) == FirstMatch(entries, NextOfEntry)
    decreases |entries|
  {
    if entries != [] {
      FirstNextIsFirstMatch(entries[1..]);
    }
  }

  /** Nothing is found exactly when `f` maps no entry to a value. */
  lemma {:induction false} FirstMatchNone(xs: seq<string>, f: string -> Option<string>)
    ensures FirstMatch(xs, f).None? <==> forall i :: 0 <= i < |xs| ==> f(xs[i]).None?
    decreases |xs|
  {
    if xs != [] && f(xs[0]).None? {
      var rest := xs[1..];
      FirstMatchNone(rest, f);
      if FirstMatch(rest, f).Some? {
        var i :| 0 <= i < |rest| && f(rest[i]).Some?;
        assert rest[i] == xs[i + 1];
      } else {
        forall i | 0 < i < |xs| ensures f(xs[i]).None? {
          assert rest[i - 1] == xs[i];
        }
      }
    }
  }

  /** What is found is the value of an entry that no earlier entry competes with. */
  lemma {:induction false} FirstMatchSome(xs: seq<string>, f: string -> Option<string>)
    requires FirstMatch(xs, f).Some?
    ensures exists i :: 0 <= i < |xs| && f(xs[i]) == FirstMatch(xs, f) &&
                        forall j :: 0 <= j < i ==> f(xs[j]).None?
    decreases |xs|
  {
    if f(xs[0]).None? {
      var rest := xs[1..];
      FirstMatchSome(rest, f);
      var i :| 0 <= i < |rest| && f(rest[i]) == FirstMatch(rest, f) &&
               forall j :: 0 <= j < i ==> f(rest[j]).None?;
      assert rest[i] == xs[i + 1];
      forall j | 0 < j <= i ensures f(xs[j]).None? {
        assert rest[j - 1] == xs[j];
      }
    }
  }

  /** A link entry as Shopify writes it: `<url>; rel="…"`. */
  function LinkEntry(url: string, rel: string): string {
    "<" + url + ">; rel=\"" + rel + "\""
  }

  predicate LinkUrl(u: string) {
    u != "" && '>' !in u && ',' !in u && ';' !in u
  }

  lemma TrimAngle(ws: string, u: string)
    requires ws in {"", " "}
    ensures Trim(ws + "<" + u + ">") == "<" + u + ">"
  {
    var t := "<" + u + ">";
    assert t[0] == '<' && t[|t| - 1] == '>';
    assert ws + "<" + u + ">" == ws + t;
    if ws == "" {
      assert ws + t == t;
      TrimNoOp(t);
    } else {
      assert ws == [' '];
      TrimAfterSpace(t);
    }
  }

  lemma AngleTargetOf(u: string)
    requires LinkUrl(u)
    ensures AngleTarget("<" + u + ">") == Some(u)
  {
    var s := "<" + u + ">";
    assert s[1..] == u + ['>'] + "";
    SplitAfterFirst(u, "", '>');
  }

  /** The parameter part of an entry, after the ';', trims to `rel="…"`. */
  lemma RelParam(rel: string)
    ensures Trim(" rel=\"" + rel + "\"") == "rel=\"" + rel + "\""
  {
    var t := "rel=\"" + rel + "\"";
    assert t[0] == 'r' && t[|t| - 1] == '"';
    assert " rel=\"" == [' '] + "rel=\"";
    assert " rel=\"" + rel + "\"" == [' '] + t;
    TrimAfterSpace(t);
  }

  lemma RelNextParam()
    ensures Trim(" rel=\"" + "next" + "\"") == RelNext
  {
    RelParam("next");
    RelNextSpelled();
  }

  lemma RelNextSpelled()
    ensures "rel=\"" + "next" + "\"" == RelNext
  {
  }

  lemma RelPreviousParam()
    ensures !Contains(Trim(" rel=\"" + "previous" + "\""), RelNext)
  {
    RelParam("previous");
    assert "rel=\"" + "previous" + "\"" == "rel=\"previous\"";
    PreviousIsNotNext();
  }

  lemma PreviousIsNotNext()
    ensures !Contains("rel=\"previous\"", RelNext)
  {
    var s := "rel=\"previous\"";
    forall i | 0 <= i <= |s| ensures !OccursAt(s, RelNext, i) {
      if 0 <= i <= |s| - |RelNext| {
        assert s[i + 5] != 'n';
        assert s[i..i + |RelNext|][5] == s[i + 5];
      }
    }
  }

  /** One link entry, possibly after the space that follows a comma, split at ';'. */
  lemma EntryFields(ws: string, u: string, rel: string)
    requires ws in {"", " "} && LinkUrl(u) && ';' !in rel
    ensures Split(ws + LinkEntry(u, rel), ';') == [ws + "<" + u + ">", " rel=\"" + rel + "\""]
  {
    var a := ws + "<" + u + ">";
    var b := " rel=\"" + rel + "\"";
    assert ';' !in ws by { assert ws == "" || ws == " "; }
    assert ';' !in a;
    assert ';' !in b;
    var e := "<" + u + ">";
    assert LinkEntry(u, rel) == e + [';'] + b;
    assert a == ws + e;
    assert ws + LinkEntry(u, rel) == a + [';'] + b;
    SplitAfterFirst(a, b, ';');
    SplitWithoutSep(b, ';');
  }

  lemma NextEntry(ws: string, u: string)
    requires ws in {"", " "} && LinkUrl(u)
    ensures NextOfEntry(ws + LinkEntry(u, "next")) == Some(u)
  {
    var fields := Split(ws + LinkEntry(u, "next"), ';');
    EntryFields(ws, u, "next");
    assert fields[1] == " rel=\"" + "next" + "\"";
    RelNextParam();
    ContainsItself(RelNext);
    assert Contains(Trim(fields[1]), RelNext);
    TrimAngle(ws, u);
    assert Trim(fields[0]) == "<" + u + ">";
    AngleTargetOf(u);
  }

  lemma PreviousEntry(u: string)
    requires LinkUrl(u)
    ensures NextOfEntry(LinkEntry(u, "previous")).None?
  {
    var e := LinkEntry(u, "previous");
    assert "" + e == e;
    EntryFields("", u, "previous");
    var fields := Split(e, ';');
    assert fields[1] == " rel=\"" + "previous" + "\"";
    RelPreviousParam();
    assert !Contains(Trim(fields[1]), RelNext);
  }

  /** The link header of a page with a next page: its URL is followed. */
  lemma NextLinkOfNextEntry(u: string)
    requires LinkUrl(u)
    ensures ParseNextLink(LinkEntry(u, "next")) == Some(u)
  {
    var h := LinkEntry(u, "next");
    SplitWithoutSep(h, ',');
    NextEntry("", u);
    assert "" + h == h;
  }

  /** The link header of a middle page: the `previous` entry is passed over and the
      `next` one is followed. */
  lemma NextLinkAfterPrevious(p: string, u: string)
    requires LinkUrl(p) && LinkUrl(u)
    ensures ParseNextLink(LinkEntry(p, "previous") + ", " + LinkEntry(u, "next")) == Some(u)
  {
    var prev := LinkEntry(p, "previous");
    var next := " " + LinkEntry(u, "next");
    var h := prev + ", " + LinkEntry(u, "next");
    assert h == prev + [','] + next;
    assert ',' !in prev;
    assert ',' !in next;
    SplitAfterFirst(prev, next, ',');
    SplitWithoutSep(next, ',');
    var parts := Split(h, ',');
    assert parts == [prev, next];
    PreviousEntry(p);
    NextEntry(" ", u);
    assert parts[1..] == [next];
    assert FirstNext(parts) == FirstNext([next]);
  }

  /** The link header of the last page holds only a `previous` entry: nothing follows. */
  lemma NoNextOnLastPage(p: string)
    requires LinkUrl(p)
    ensures ParseNextLink(LinkEntry(p, "previous")).None?
  {
    var h := LinkEntry(p, "previous");
    SplitWithoutSep(h, ',');
    PreviousEntry(p);
    assert FirstNext([h]) == FirstNext([]);
  }

  // ---------------------------------------------------------------------------
  // pagination
  // ---------------------------------------------------------------------------

  /** The first URL of `paginate(path, {query, limit})`: the query's entries in order, then
      `limit` set. */
  function FirstPageUrl(c: Client, path: string, query: Params, limit: nat, enc: string -> string): string {
    c.base + path + "?" + FormEncode(SetParam(query, "limit", NatToDecimal(limit)), enc)
  }

  /** What following the links from `url` yields: the pages in fetch order, every URL
      requested, and the error that ended the walk, if any. */
  datatype Walk<B> = Walk(pages: seq<B>, urls: seq<string>, failure: Option<string>)

  function Prefixed<B>(pages: seq<B>, urls: seq<string>, w: Walk<B>): Walk<B> {
    Walk(pages + w.pages, urls + w.urls, w.failure)
  }

  /** The walk that starts with request `i` (reply `replies[i]`) for `url`. */
  function WalkAt<B>(replies: seq<Reply<B>>, i: nat, path: string, url: string): (w: Walk<B>)
    requires i <= |replies|
    ensures |w.urls| == |w.pages| + (if w.failure.Some? then 1 else 0)
    ensures |w.urls| >= 1 && w.urls[0] == url
    ensures i + |w.pages| <= |replies|
    decreases |replies| - i
  {
    if i == |replies| then Walk([], [url], Some(FetchFailed))
    else
      match replies[i]
      case NoReply(e) => Walk([], [url], Some(e))
      case Reply(status, body, text, link) =>
        if !IsOk(status) then Walk([], [url], Some(FailedMessage("GET", path, status, text)))
        else
          match ParseNextLink(link)
          case None => Walk([body], [url], None)
          case Some(u) => Prefixed([body], [url], WalkAt(replies, i + 1, path, u))
  }

  lemma PrefixedTwice<B>(pages: seq<B>, urls: seq<string>, body: B, url: string, w: Walk<B>)
    ensures Prefixed(pages, urls, Prefixed([body], [url], w)) == Prefixed(pages + [body], urls + [url], w)
  {
    assert pages + ([body] + w.pages) == (pages + [body]) + w.pages;
    assert urls + ([url] + w.urls) == (urls + [url]) + w.urls;
  }

  /** Everything `paginate` yields when its first request goes to `url`. */
  function WalkFrom<B>(replies: seq<Reply<B>>, path: string, url: string): (w: Walk<B>)
    ensures |w.pages| <= |replies|
  {
    WalkAt(replies, 0, path, url)
  }

  /** A 2xx reply with a next link: its page, then the walk from that link. */
  lemma WalkAtStep<B>(replies: seq<Reply<B>>, k: nat, path: string, url: string, u: string)
    requires k < |replies| && replies[k].Reply? && IsOk(replies[k].status)
    requires ParseNextLink(replies[k].link) == Some(u)
    ensures WalkAt(replies, k, path, url) == Prefixed([replies[k].body], [url], WalkAt(replies, k + 1, path, u))
  {
  }

  lemma {:induction false} WalkAtPages<B>(replies: seq<Reply<B>>, k: nat, path: string, url: string)
    requires k <= |replies|
    ensures var w := WalkAt(replies, k, path, url);
            forall j :: k <= j < k + |w.pages| ==>
              replies[j].Reply? && IsOk(replies[j].status) && w.pages[j - k] == replies[j].body
    decreases |replies| - k
  {
    var w := WalkAt(replies, k, path, url);
    if k < |replies| && replies[k].Reply? && IsOk(replies[k].status) && ParseNextLink(replies[k].link).Some? {
      var u := ParseNextLink(replies[k].link).value;
      WalkAtStep(replies, k, path, url, u);
      WalkAtPages(replies, k + 1, path, u);
      var w' := WalkAt(replies, k + 1, path, u);
      forall j | k <= j < k + |w.pages|
        ensures replies[j].Reply? && IsOk(replies[j].status) && w.pages[j - k] == replies[j].body
      {
        if j > k {
          assert w.pages[j - k] == w'.pages[j - (k + 1)];
        }
      }
    }
  }

  lemma {:induction false} WalkAtLinks<B>(replies: seq<Reply<B>>, k: nat, path: string, url: string)
    requires k <= |replies|
    ensures var w := WalkAt(replies, k, path, url);
            forall j :: k <= j < k + |w.urls| - 1 ==> replies[j].Reply? && ParseNextLink(replies[j].link) == Some(w.urls[j - k + 1])
    decreases |replies| - k
  {
    var w := WalkAt(replies, k, path, url);
    if k < |replies| && replies[k].Reply? && IsOk(replies[k].status) && ParseNextLink(replies[k].link).Some? {
      var u := ParseNextLink(replies[k].link).value;
      WalkAtStep(replies, k, path, url, u);
      WalkAtLinks(replies, k + 1, path, u);
      var w' := WalkAt(replies, k + 1, path, u);
      forall j | k <= j < k + |w.urls| - 1 ensures replies[j].Reply? && ParseNextLink(replies[j].link) == Some(w.urls[j - k + 1]) {
        assert w.urls[j - k + 1] == w'.urls[j - (k + 1) + 1];
      }
    }
  }

  lemma {:induction false} WalkAtEnd<B>(replies: seq<Reply<B>>, k: nat, path: string, url: string)
    requires k <= |replies|
    ensures var w := WalkAt(replies, k, path, url);
            w.failure.None? ==> |w.pages| >= 1 && replies[k + |w.pages| - 1].Reply? && ParseNextLink(replies[k + |w.pages| - 1].link).None?
    decreases |replies| - k
  {
    var w := WalkAt(replies, k, path, url);
    if k < |replies| && replies[k].Reply? && IsOk(replies[k].status) && ParseNextLink(replies[k].link).Some? {
      var u := ParseNextLink(replies[k].link).value;
      WalkAtStep(replies, k, path, url, u);
      WalkAtEnd(replies, k + 1, path, u);
      var w' := WalkAt(replies, k + 1, path, u);
      assert |w.pages| == 1 + |w'.pages|;
    } else if w.failure.None? {
      assert w.pages == [replies[k].body];
    }
  }

  /** Pages come out in fetch order: page `i` of the walk from request `k` is the body of
      reply `k + i`, a 2xx reply whose `link` header names the next URL requested; a walk
      without error ends at a reply without a next link. */
  lemma WalkAtFollowsLinks<B>(replies: seq<Reply<B>>, k: nat, path: string, url: string)
    requires k <= |replies|
    ensures var w := WalkAt(replies, k, path, url);
            && (forall j :: k <= j < k + |w.pages| ==>
                  replies[j].Reply? && IsOk(replies[j].status) && w.pages[j - k] == replies[j].body)
            && (forall j :: k <= j < k + |w.urls| - 1 ==> ParseNextLink(replies[j].link) == Some(w.urls[j - k + 1]))
            && (w.failure.None? ==> |w.pages| >= 1 && ParseNextLink(replies[k + |w.pages| - 1].link).None?)
  {
    WalkAtPages(replies, k, path, url);
    WalkAtLinks(replies, k, path, url);
    WalkAtEnd(replies, k, path, url);
  }

  /** Three 2xx pages chained by `next` links yield exactly those three bodies. */
  lemma ThreePageChain<B>(r1: Reply<B>, r2: Reply<B>, r3: Reply<B>, path: string, url: string, u2: string, u3: string)
    requires r1.Reply? && IsOk(r1.status) && ParseNextLink(r1.link) == Some(u2)
    requires r2.Reply? && IsOk(r2.status) && ParseNextLink(r2.link) == Some(u3)
    requires r3.Reply? && IsOk(r3.status) && ParseNextLink(r3.link).None?
    ensures WalkFrom([r1, r2, r3], path, url) == Walk([r1.body, r2.body, r3.body], [url, u2, u3], None)
  {
    var rs := [r1, r2, r3];
    var w3 := WalkAt(rs, 2, path, u3);
    assert w3 == Walk([r3.body], [u3], None);
    var w2 := WalkAt(rs, 1, path, u2);
    assert w2 == Prefixed([r2.body], [u2], w3);
    assert WalkAt(rs, 0, path, url) == Prefixed([r1.body], [url], w2);
  }

  datatype Step<B> = Page(body: B) | Done | Failed(msg: string)

  /** The async generator returned by `paginate`: each `Next` fetches the pending URL and
      yields its page, ends when no next link remains, or fails on the first error. */
  class Paginator<B> {
    const path: string
    const replies: seq<Reply<B>>
    /** Everything this generator will ever yield. */
    ghost const walk: Walk<B>
    /** The URL the next call fetches (`next` in the source); none once finished. */
    var next: Option<string>
    /** How many replies the requests so far have used. */
    var consumed: nat
    var failure: Option<string>
    ghost var pages: seq<B>
    ghost var urls: seq<string>

    ghost predicate Valid()
      reads this
    {
      && consumed <= |replies|
      && (next.Some? ==> failure.None? && walk == Prefixed(pages, urls, WalkAt(replies, consumed, path, next.value)))
      && (next.None? ==> walk == Walk(pages, urls, failure))
    }

    constructor (client: Client, path: string, query: Params, limit: nat, replies: seq<Reply<B>>,
                 enc: string -> string)
      ensures Valid()
      ensures this.path == path && this.replies == replies
      ensures walk == WalkFrom(replies, path, FirstPageUrl(client, path, query, limit, enc))
      ensures next == Some(FirstPageUrl(client, path, query, limit, enc))
      ensures pages == [] && consumed == 0
    {
      var first := FirstPageUrl(client, path, query, limit, enc);
      this.path := path;
      this.replies := replies;
      walk := WalkFrom(replies, path, first);
      next := Some(first);
      consumed := 0;
      failure := None;
      pages := [];
      urls := [];
    }

    method Next() returns (step: Step<B>)
      requires Valid()
      modifies this
      ensures Valid()
      ensures step.Page? ==> old(next).Some? && consumed == old(consumed) + 1 && pages == old(pages) + [step.body]
      ensures !step.Page? ==> next.None? && pages == old(pages) == walk.pages
      ensures step.Done? ==> old(next).None? || walk.failure.None?
      ensures step.Failed? ==> walk.failure == Some(step.msg)
      ensures step.Failed? ==> failure == Some(step.msg)
      ensures !step.Failed? ==> failure == old(failure)
    {
      if next.None? {
        return Done;
      }
      var url := next.value;
      if consumed == |replies| {
        assert WalkAt(replies, consumed, path, url) == Walk([], [url], Some(FetchFailed));
        step := Fail(url, FetchFailed);
        return;
      }
      var reply := replies[consumed];
      match reply {
        case NoReply(e) =>
          assert WalkAt(replies, consumed, path, url) == Walk([], [url], Some(e));
          consumed := consumed + 1;
          step := Fail(url, e);
        case Reply(status, body, text, link) =>
          if !IsOk(status) {
            var msg := FailedMessage("GET", path, status, text);
            assert WalkAt(replies, consumed, path, url) == Walk([], [url], Some(msg));
            consumed := consumed + 1;
            step := Fail(url, msg);
          } else {
            var following := ParseNextLink(link);
            match following {
              case None =>
                assert WalkAt(replies, consumed, path, url) == Walk([body], [url], None);
              case Some(u) =>
                WalkAtStep(replies, consumed, path, url, u);
            }
            consumed := consumed + 1;
            step := Accept(url, body, following);
          }
      }
    }

    /** The request for `url` failed with `msg`: the generator ends. */
    method Fail(url: string, msg: string) returns (step: Step<B>)
      requires consumed <= |replies| && next == Some(url) && failure.None?
      requires walk == Prefixed(pages, urls, Walk([], [url], Some(msg)))
      modifies this`next, this`failure, this`urls
      ensures Valid()
      ensures step == Failed(msg) && next.None? && failure == Some(msg)
      ensures pages == walk.pages && walk.failure == Some(msg)
    {
      next := None;
      failure := Some(msg);
      urls := urls + [url];
      assert pages + [] == pages;
      step := Failed(msg);
    }

    /** The request for `url` answered 2xx with `body` and a link header naming `following`:
        yield the page and go on to `following`, if any. */
    method Accept(url: string, body: B, following: Option<string>) returns (step: Step<B>)
      requires consumed <= |replies| && next == Some(url) && failure.None?
      requires following.None? ==> walk == Prefixed(pages, urls, Walk([body], [url], None))
      requires following.Some? ==>
                 walk == Prefixed(pages, urls, Prefixed([body], [url], WalkAt(replies, consumed, path, following.value)))
      modifies this`next, this`pages, this`urls
      ensures Valid()
      ensures step == Page(body) && pages == old(pages) + [body] && failure.None?
      ensures next.None? ==> walk.failure.None?
    {
      if following.Some? {
        PrefixedTwice(pages, urls, body, url, WalkAt(replies, consumed, path, following.value));
      }
      pages := pages + [body];
      urls := urls + [url];
      next := following;
      step := Page(body);
    }
  }

  // ---------------------------------------------------------------------------
  // webhook registration
  // ---------------------------------------------------------------------------

  datatype Registration = Registration(topic: string, ok: bool, id: Option<int>, error: string)

  /** The result pushed for one topic: `{topic, ok: true, id}` after a 2xx reply, otherwise
      `{topic, ok: false, error}` with the message of the request's error. */
  function RegistrationOf(topic: string, reply: Reply<Option<int>>): (r: Registration)
    ensures r.topic == topic
    ensures r.ok <==> reply.Reply? && IsOk(reply.status)
    ensures r.ok ==> r.id == reply.body
    ensures !r.ok ==> r.id.None? && r.error == Request("POST", "/webhooks.json", reply).msg
  {
    match Request("POST", "/webhooks.json", reply)
    case Ok(res) => Registration(topic, true, res.data, "")
    case Err(m) => Registration(topic, false, None, m)
  }

  /** `registerWebhooks({shop, accessToken, topics})`, `post(topic, address)` being the
      reply to the POST that subscribes `topic` to `address`. */
  method RegisterWebhooks(shop: string, accessToken: string, topics: seq<string>, env: Env,
                          post: (string, string) -> Reply<Option<int>>)
    returns (r: Result<seq<Registration>>)
    ensures BuildShopifyClient(shop, accessToken, env).Err? ==> r == Err(ClientRequired)
    ensures BuildShopifyClient(shop, accessToken, env).Ok? && GetEnv(env, "SHOPIFY_WEBHOOK_URI").Err? ==>
              r == Err(GetEnv(env, "SHOPIFY_WEBHOOK_URI").msg)
    ensures r.Ok? <==> BuildShopifyClient(shop, accessToken, env).Ok? && GetEnv(env, "SHOPIFY_WEBHOOK_URI").Ok?
    ensures r.Ok? ==>
              && |r.value| == |topics|
              && forall i :: 0 <= i < |topics| ==>
                   r.value[i] == RegistrationOf(topics[i], post(topics[i], env["SHOPIFY_WEBHOOK_URI"]))
  {
    var client := BuildShopifyClient(shop, accessToken, env);
    if client.Err? {
      return Err(client.msg);
    }
    var address := GetEnv(env, "SHOPIFY_WEBHOOK_URI");
    if address.Err? {
      return Err(address.msg);
    }
    var results: seq<Registration> := [];
    for i := 0 to |topics|
      invariant |results| == i
      invariant forall j :: 0 <= j < i ==> results[j] == RegistrationOf(topics[j], post(topics[j], address.value))
    {
      var res := RegistrationOf(topics[i], post(topics[i], address.value));
      results := results + [res];
    }
    return Ok(results);
  }
}
