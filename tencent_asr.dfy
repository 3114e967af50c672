/** The signed websocket URL of Tencent Cloud real-time speech recognition
    (`build_tencent_asr_ws_url`). The clock and the two uuids are inputs; HMAC-SHA1
    is a parameter, Base64 and percent-encoding are the concrete codecs. */
module TencentAsr {
  import opened Wrappers
  import opened PyText
  import opened Query
  import Base64
  import Percent
  import Utf8

  /** HMAC-SHA1(key, message) as raw digest octets. */
  type Hmac = (seq<byte>, seq<byte>) -> seq<byte>

  const Host := "asr.cloud.tencent.com/asr/v2/"

  /** The caller's arguments; the defaults are those of the source. */
  datatype Request = Request(appid: string, secretId: string, secretKey: string,
                             engineModelType: string, voiceFormat: int, expiredSeconds: int)

  function DefaultRequest(appid: string, secretId: string, secretKey: string): (r: Request)
    ensures r.engineModelType == "16k_zh" && r.voiceFormat == 1 && r.expiredSeconds == 300
  {
    Request(appid, secretId, secretKey, "16k_zh", 1, 300)
  }

  /** What the source reads from its environment: `int(time.time())`,
      `uuid.uuid4().int` for the nonce and `str(uuid.uuid4())` for the voice id. */
  datatype Env = Env(ts: int, nonceUuid: nat, voiceId: string)

  /** `int(str(u)[:10])`: the number spelled by the first ten digits of u. */
  function Nonce(u: nat): (r: nat)
    ensures r < Pow10(10)
  {
    var p := Take(NatToString(u), 10);
    DigitsValueBound(p);
    Pow10Mono(|p|, 10);
    DigitsValue(p)
  }

  lemma {:induction false} Pow10Mono(j: nat, k: nat)
    requires j <= k
    ensures Pow10(j) <= Pow10(k)
  {
    if j < k {
      Pow10Mono(j, k - 1);
    }
  }

  /** The nonce prints as exactly the first ten (or fewer) digits of the uuid. */
  lemma NonceText(u: nat)
    ensures NatToString(Nonce(u)) == Take(NatToString(u), 10)
  {
    var s := NatToString(u);
    var p := Take(s, 10);
    assert p[0] == s[0];
    NatToStringOfValue(p);
  }

  function Expired(rq: Request, env: Env): int {
    env.ts + rq.expiredSeconds
  }

  /** The parameters of the signing string, in the order the source writes them. */
  function SignParams(rq: Request, env: Env): (ps: seq<Param>)
    ensures |ps| == 7
  {
    [Param("engine_model_type", rq.engineModelType),
     Param("expired", IntToString(Expired(rq, env))),
     Param("nonce", NatToString(Nonce(env.nonceUuid))),
     Param("secretid", rq.secretId),
     Param("timestamp", IntToString(env.ts)),
     Param("voice_format", IntToString(rq.voiceFormat)),
     Param("voice_id", env.voiceId)]
  }

  /** The raw signing string: host, path, appid and the unencoded query. */
  function SigningString(rq: Request, env: Env): string {
    Host + rq.appid + "?" + QueryString(SignParams(rq, env))
  }

  /** base64(HMAC-SHA1(secret_key, signing string)). */
  function Signature(rq: Request, env: Env, hmac: Hmac): string {
    Base64.Encode(hmac(Utf8.Encode(rq.secretKey), Utf8.Encode(SigningString(rq, env))))
  }

  function BuildUrl(rq: Request, env: Env, hmac: Hmac): (url: string)
    ensures |url| > 6 && url[..6] == "wss://"
  {
    "wss://" + SigningString(rq, env) + "&signature=" + Percent.Quote(Signature(rq, env, hmac))
  }

  const SignKeys: seq<string> :=
    ["engine_model_type", "expired", "nonce", "secretid", "timestamp", "voice_format", "voice_id"]

  lemma SignKeysOrdered()
    ensures |SignKeys| == 7
    ensures forall i :: 0 <= i < 6 ==> LexLess(SignKeys[i], SignKeys[i + 1])
  {
    forall i | 0 <= i < 6 ensures LexLess(SignKeys[i], SignKeys[i + 1]) {
      if i == 0 {
        assert LexLess("engine_model_type", "expired");
      } else if i == 1 {
        assert LexLess("expired", "nonce");
      } else if i == 2 {
        assert LexLess("nonce", "secretid");
      } else if i == 3 {
        assert LexLess("secretid", "timestamp");
      } else if i == 4 {
        assert LexLess("timestamp", "voice_format");
      } else {
        assert LexLess("voice_format", "voice_id");
      }
    }
  }

  lemma SignKeysClean()
    ensures |SignKeys| == 7
    ensures forall i :: 0 <= i < 7 ==> Lacks(SignKeys[i], '&') && Lacks(SignKeys[i], '=')
  {
    assert Lacks("engine_model_type", '&') && Lacks("engine_model_type", '=');
    assert Lacks("expired", '&') && Lacks("expired", '=');
    assert Lacks("nonce", '&') && Lacks("nonce", '=');
    assert Lacks("secretid", '&') && Lacks("secretid", '=');
    assert Lacks("timestamp", '&') && Lacks("timestamp", '=');
    assert Lacks("voice_format", '&') && Lacks("voice_format", '=');
    assert Lacks("voice_id", '&') && Lacks("voice_id", '=');
  }

  lemma SignParamsKeys(rq: Request, env: Env)
    ensures Keys(SignParams(rq, env)) == SignKeys
  {
  }

  /** The parameter keys are exactly those seven, in strictly ascending order. */
  lemma SignKeysAscending(rq: Request, env: Env)
    ensures Keys(SignParams(rq, env)) == SignKeys
    ensures KeysAscending(SignParams(rq, env))
  {
    var ps := SignParams(rq, env);
    SignParamsKeys(rq, env);
    SignKeysOrdered();
    forall i | 0 <= i < |ps| - 1 ensures LexLess(ps[i].key, ps[i + 1].key) {
      assert ps[i].key == Keys(ps)[i] == SignKeys[i];
      assert ps[i + 1].key == Keys(ps)[i + 1] == SignKeys[i + 1];
    }
  }

  /** `expired` is the timestamp plus the validity period, and the numeric values
      read back as the numbers they print. */
  lemma ExpiredValue(rq: Request, env: Env)
    ensures ParseInt(SignParams(rq, env)[1].value) == Ok(env.ts + rq.expiredSeconds)
    ensures ParseInt(SignParams(rq, env)[4].value) == Ok(env.ts)
    ensures ParseInt(SignParams(rq, env)[5].value) == Ok(rq.voiceFormat)
  {
    var ps := SignParams(rq, env);
    assert ps[1].value == IntToString(env.ts + rq.expiredSeconds);
    ParseIntOfIntToString(env.ts + rq.expiredSeconds);
    assert ps[4].value == IntToString(env.ts);
    ParseIntOfIntToString(env.ts);
    assert ps[5].value == IntToString(rq.voiceFormat);
    ParseIntOfIntToString(rq.voiceFormat);
  }

  /** The URL is "wss://" + the signing string + one more parameter, `signature`,
      whose value is the once-quoted Base64 signature. */
  lemma UrlLayout(rq: Request, env: Env, hmac: Hmac)
    ensures BuildUrl(rq, env, hmac) ==
            "wss://" + Host + rq.appid + "?" +
            QueryString(SignParams(rq, env) + [Param("signature", Percent.Quote(Signature(rq, env, hmac)))])
  {
    var ps := SignParams(rq, env);
    var z := Percent.Quote(Signature(rq, env, hmac));
    var head := Host + rq.appid + "?";
    var q := QueryString(ps);
    var w: string := "wss://";
    var tail := "&" + Render(Param("signature", z));
    assert tail == "&signature=" + z;
    calc {
      BuildUrl(rq, env, hmac);
      (w + (head + q) + "&signature=") + z;
      { AppendAssoc(w + (head + q), "&signature=", z); }
      w + (head + q) + tail;
      { AppendParam(w, head, ps, Param("signature", z)); }
      w + head + QueryString(ps + [Param("signature", z)]);
      { AppendAssoc(w, Host + rq.appid, "?"); AppendAssoc(w, Host, rq.appid); }
      w + Host + rq.appid + "?" + QueryString(ps + [Param("signature", z)]);
    }
  }

  /** The text after "wss://" starts with the whole signing string. */
  lemma UrlBodyIsSigningString(rq: Request, env: Env, hmac: Hmac)
    ensures BuildUrl(rq, env, hmac)[6..6 + |SigningString(rq, env)|] == SigningString(rq, env)
  {
    var s := SigningString(rq, env);
    var z := Percent.Quote(Signature(rq, env, hmac));
    var u := BuildUrl(rq, env, hmac);
    var w: string := "wss://";
    var x := w + s;
    AppendAssoc(x, "&signature=", z);
    assert u[6..6 + |s|] == x[6..6 + |s|];
    assert x[6..6 + |s|] == s;
  }

  /** Signed parameters whose text values hold no '&' can be told apart. */
  lemma SignParamsSeparable(rq: Request, env: Env)
    requires Lacks(rq.engineModelType, '&') && Lacks(rq.secretId, '&') && Lacks(env.voiceId, '&')
    ensures Separable(SignParams(rq, env))
  {
    var ps := SignParams(rq, env);
    SignKeysClean();
    SignParamsKeys(rq, env);
    NumeralLacks(Expired(rq, env), '&');
    NumeralLacks(Nonce(env.nonceUuid), '&');
    NumeralLacks(env.ts, '&');
    NumeralLacks(rq.voiceFormat, '&');
    forall i | 0 <= i < 7 ensures Lacks(ps[i].value, '&') {
      if i == 1 { assert ps[1].value == IntToString(Expired(rq, env)); }
      else if i == 2 { assert ps[2].value == IntToString(Nonce(env.nonceUuid)); }
      else if i == 4 { assert ps[4].value == IntToString(env.ts); }
      else if i == 5 { assert ps[5].value == IntToString(rq.voiceFormat); }
    }
    forall i | 0 <= i < 7 ensures Lacks(ps[i].key, '&') && Lacks(ps[i].key, '=') {
      assert ps[i].key == Keys(ps)[i] == SignKeys[i];
    }
  }

  /** Values free of '&' make the URL's query split back into the seven signed
      parameters followed by `signature`, whose value unquotes to the Base64 text
      that decodes to the HMAC digest of the signing string. */
  lemma UrlQueryRecoversSignature(rq: Request, env: Env, hmac: Hmac)
    requires Lacks(rq.engineModelType, '&') && Lacks(rq.secretId, '&') && Lacks(env.voiceId, '&')
    ensures var q := SignParams(rq, env) + [Param("signature", Percent.Quote(Signature(rq, env, hmac)))];
            ParseQuery(QueryString(q)) == q
    ensures Percent.UnquoteBytes(Percent.Quote(Signature(rq, env, hmac))) == Some(Utf8.Encode(Signature(rq, env, hmac)))
    ensures Base64.Decode(Signature(rq, env, hmac)) ==
            Some(hmac(Utf8.Encode(rq.secretKey), Utf8.Encode(SigningString(rq, env))))
  {
    var sig := Signature(rq, env, hmac);
    var p := Param("signature", Percent.Quote(sig));
    var ps := SignParams(rq, env);
    SignParamsSeparable(rq, env);
    Percent.QuoteAlphabet(sig);
    assert Lacks("signature", '&') && Lacks("signature", '=');
    assert Separable([p]);
    SeparableSnoc(ps, p);
    ParseQueryString(ps + [p]);
    Percent.UnquoteQuote(sig);
    Base64.DecodeEncode(hmac(Utf8.Encode(rq.secretKey), Utf8.Encode(SigningString(rq, env))));
  }
}
