/** The signed websocket URL of Tencent Cloud streaming speech synthesis
    (`build_tencent_tts_ws_url`). The clock and the uuid are inputs; HMAC-SHA1 is
    a parameter. */
module TencentTts {
  import opened Wrappers
  import opened PyText
  import opened Query
  import Base64
  import Percent
  import Utf8
  import TencentAsr

  const Host := "tts.cloud.tencent.com/stream_ws?"

  datatype Request = Request(appid: string, secretId: string, secretKey: string,
                             text: string, codec: string, expiredSeconds: int)

  function DefaultRequest(appid: string, secretId: string, secretKey: string, text: string, codec: string): (r: Request)
    ensures r.expiredSeconds == 300
  {
    Request(appid, secretId, secretKey, text, codec, 300)
  }

  /** `int(time.time())` and `uuid.uuid4().int`. */
  datatype Env = Env(ts: int, sessionUuid: nat)

  /** `int(str(u)[:128])`. */
  function SessionId(u: nat): nat {
    DigitsValue(Take(NatToString(u), 128))
  }

  /** A uuid has at most 39 decimal digits, so the 128-character cut never bites
      and the session id is the uuid's integer itself. */
  lemma SessionIdIsUuid(u: nat)
    requires u < Pow10(128)
    ensures SessionId(u) == u
  {
    NatToStringLength(u, 128);
    ValueOfNatToString(u);
  }

  /** The thirteen parameters in the order the source writes them; `text` is the
      Text value, raw in the signing string and quoted in the URL. */
  function Params(rq: Request, env: Env, appId: int, text: string): (ps: seq<Param>)
    ensures |ps| == 13
  {
    Front(rq, env, appId) + [Param("Text", text)] + Back(env)
  }

  /** The nine parameters before Text. Speed is 0 and SampleRate 16000, as `str`
      prints them. */
  function Front(rq: Request, env: Env, appId: int): (ps: seq<Param>)
    ensures |ps| == 9
  {
    [Param("Action", "TextToStreamAudioWS"),
     Param("AppId", IntToString(appId)),
     Param("Codec", rq.codec),
     Param("EnableSubtitle", "True"),
     Param("Expired", IntToString(env.ts + rq.expiredSeconds)),
     Param("SampleRate", "16000"),
     Param("SecretId", rq.secretId),
     Param("SessionId", NatToString(SessionId(env.sessionUuid))),
     Param("Speed", "0")]
  }

  /** The three after Text; VoiceType is 101001 and Volume 0. */
  function Back(env: Env): (ps: seq<Param>)
    ensures |ps| == 3
  {
    [Param("Timestamp", IntToString(env.ts)),
     Param("VoiceType", "101001"),
     Param("Volume", "0")]
  }

  /** "GET" + host and path + the unencoded query. */
  function SigningString(rq: Request, env: Env, appId: int): string {
    "GET" + Host + QueryString(Params(rq, env, appId, rq.text))
  }

  function Signature(rq: Request, env: Env, appId: int, hmac: TencentAsr.Hmac): string {
    Base64.Encode(hmac(Utf8.Encode(rq.secretKey), Utf8.Encode(SigningString(rq, env, appId))))
  }

  /** The URL once `int(appid)` has given appId. */
  function Url(rq: Request, env: Env, appId: int, hmac: TencentAsr.Hmac): string {
    "wss://" + Host + QueryString(Params(rq, env, appId, Percent.Quote(rq.text))) +
    "&Signature=" + Percent.Quote(Signature(rq, env, appId, hmac))
  }

  /** The URL, or the ValueError `int(appid)` raises first. */
  function BuildUrl(rq: Request, env: Env, hmac: TencentAsr.Hmac): (r: Result<string>)
    ensures ParseInt(rq.appid).Err? ==> r == Err(ParseInt(rq.appid).exc)
    ensures ParseInt(rq.appid).Ok? ==> r == Ok(Url(rq, env, ParseInt(rq.appid).value, hmac))
  {
    match ParseInt(rq.appid)
    case Err(e) => Err(e)
    case Ok(appId) => Ok(Url(rq, env, appId, hmac))
  }

  /** The URL begins with the "wss://" scheme, so it is longer than two
      characters. */
  lemma UrlScheme(rq: Request, env: Env, appId: int, hmac: TencentAsr.Hmac)
    ensures StartsWith(Url(rq, env, appId, hmac), "wss://") && |Url(rq, env, appId, hmac)| > 6
  {
    LeadingPiece("wss://", Host, QueryString(Params(rq, env, appId, Percent.Quote(rq.text))),
                 "&Signature=", Percent.Quote(Signature(rq, env, appId, hmac)));
  }

  lemma LeadingPiece(a: string, b: string, c: string, d: string, e: string)
    ensures |a + b + c + d + e| >= |a| + |b| + |d| && (a + b + c + d + e)[..|a|] == a
  {
    assert a + b + c + d + e == a + (b + c + d + e);
  }

  /** What the caller of the builder expects back: the URL and the session id
      it signs, as a pair. */
  function BuildUrlWithSession(rq: Request, env: Env, hmac: TencentAsr.Hmac): (r: Result<(string, nat)>)
    ensures r.Err? <==> ParseInt(rq.appid).Err?
    ensures r.Err? ==> r.exc == ParseInt(rq.appid).exc
  {
    match BuildUrl(rq, env, hmac)
    case Err(e) => Err(e)
    case Ok(url) => Ok((url, SessionId(env.sessionUuid)))
  }

  /** The session id of the pair is the SessionId parameter signed into the
      URL, and the URL is the one the builder renders. */
  lemma SessionIdSigned(rq: Request, env: Env, hmac: TencentAsr.Hmac)
    requires ParseInt(rq.appid).Ok?
    ensures var r := BuildUrlWithSession(rq, env, hmac);
            var appId := ParseInt(rq.appid).value;
            r.Ok? && r.value.0 == Url(rq, env, appId, hmac) &&
            Params(rq, env, appId, Percent.Quote(rq.text))[7] == Param("SessionId", NatToString(r.value.1)) &&
            Params(rq, env, appId, rq.text)[7] == Param("SessionId", NatToString(r.value.1))
  {
    var appId := ParseInt(rq.appid).value;
    assert BuildUrl(rq, env, hmac) == Ok(Url(rq, env, appId, hmac));
    assert BuildUrlWithSession(rq, env, hmac) == Ok((Url(rq, env, appId, hmac), SessionId(env.sessionUuid)));
  }

  const ParamKeys: seq<string> :=
    ["Action", "AppId", "Codec", "EnableSubtitle", "Expired", "SampleRate", "SecretId",
     "SessionId", "Speed", "Text", "Timestamp", "VoiceType", "Volume"]

  lemma ParamKeysOrdered()
    ensures |ParamKeys| == 13
    ensures forall i :: 0 <= i < 12 ==> LexLess(ParamKeys[i], ParamKeys[i + 1])
  {
    assert LexLess("Action", "AppId");
    assert LexLess("AppId", "Codec");
    assert LexLess("Codec", "EnableSubtitle");
    assert LexLess("EnableSubtitle", "Expired");
    assert LexLess("Expired", "SampleRate");
    assert LexLess("SampleRate", "SecretId");
    assert LexLess("SecretId", "SessionId");
    assert LexLess("SessionId", "Speed");
    assert LexLess("Speed", "Text");
    assert LexLess("Text", "Timestamp");
    assert LexLess("Timestamp", "VoiceType");
    assert LexLess("VoiceType", "Volume");
  }

  lemma ParamKeysClean()
    ensures |ParamKeys| == 13
    ensures forall i :: 0 <= i < 13 ==> Lacks(ParamKeys[i], '&') && Lacks(ParamKeys[i], '=')
  {
    assert Lacks("Action", '&') && Lacks("Action", '=');
    assert Lacks("AppId", '&') && Lacks("AppId", '=');
    assert Lacks("Codec", '&') && Lacks("Codec", '=');
    assert Lacks("EnableSubtitle", '&') && Lacks("EnableSubtitle", '=');
    assert Lacks("Expired", '&') && Lacks("Expired", '=');
    assert Lacks("SampleRate", '&') && Lacks("SampleRate", '=');
    assert Lacks("SecretId", '&') && Lacks("SecretId", '=');
    assert Lacks("SessionId", '&') && Lacks("SessionId", '=');
    assert Lacks("Speed", '&') && Lacks("Speed", '=');
    assert Lacks("Text", '&') && Lacks("Text", '=');
    assert Lacks("Timestamp", '&') && Lacks("Timestamp", '=');
    assert Lacks("VoiceType", '&') && Lacks("VoiceType", '=');
    assert Lacks("Volume", '&') && Lacks("Volume", '=');
  }

  lemma ParamsKeys(rq: Request, env: Env, appId: int, text: string)
    ensures Keys(Params(rq, env, appId, text)) == ParamKeys
  {
  }

  /** The thirteen keys, strictly ascending, whichever Text value is used. */
  lemma KeysAscendingAlways(rq: Request, env: Env, appId: int, text: string)
    ensures Keys(Params(rq, env, appId, text)) == ParamKeys
    ensures KeysAscending(Params(rq, env, appId, text))
  {
    var ps := Params(rq, env, appId, text);
    ParamsKeys(rq, env, appId, text);
    ParamKeysOrdered();
    forall i | 0 <= i < |ps| - 1 ensures LexLess(ps[i].key, ps[i + 1].key) {
      assert ps[i].key == Keys(ps)[i] == ParamKeys[i];
      assert ps[i + 1].key == Keys(ps)[i + 1] == ParamKeys[i + 1];
    }
  }

  /** The URL's parameters are the signed ones with only Text replaced by its
      quoted form. */
  lemma UrlParamsDifferOnlyInText(rq: Request, env: Env, appId: int)
    ensures Params(rq, env, appId, Percent.Quote(rq.text)) ==
            Params(rq, env, appId, rq.text)[9 := Param("Text", Percent.Quote(rq.text))]
    ensures Params(rq, env, appId, rq.text)[9] == Param("Text", rq.text)
  {
  }

  /** The values derived from the inputs read back as the numbers they print:
      AppId is `int(appid)`, Expired the timestamp plus the validity period. */
  lemma AppIdValue(rq: Request, env: Env, appId: int, text: string)
    ensures ParseInt(Params(rq, env, appId, text)[1].value) == Ok(appId)
  {
    ReadsBack(Params(rq, env, appId, text)[1].value, appId);
  }

  lemma ExpiredValue(rq: Request, env: Env, appId: int, text: string)
    ensures ParseInt(Params(rq, env, appId, text)[4].value) == Ok(env.ts + rq.expiredSeconds)
  {
    ReadsBack(Params(rq, env, appId, text)[4].value, env.ts + rq.expiredSeconds);
  }

  lemma TimestampValue(rq: Request, env: Env, appId: int, text: string)
    ensures ParseInt(Params(rq, env, appId, text)[10].value) == Ok(env.ts)
  {
    ReadsBack(Params(rq, env, appId, text)[10].value, env.ts);
  }

  /** The URL names the same host and path as the signing string, without its
      "GET", and ends with one more parameter, the capitalised `Signature`. */
  lemma UrlLayout(rq: Request, env: Env, appId: int, hmac: TencentAsr.Hmac)
    ensures Url(rq, env, appId, hmac) ==
              "wss://" + Host + QueryString(Params(rq, env, appId, Percent.Quote(rq.text)) +
                                            [Param("Signature", Percent.Quote(Signature(rq, env, appId, hmac)))])
  {
    var ps := Params(rq, env, appId, Percent.Quote(rq.text));
    SignatureLiteral();
    AppendParamFlat("wss://" + Host, ps, "Signature", Percent.Quote(Signature(rq, env, appId, hmac)));
  }

  lemma SignatureLiteral()
    ensures "&Signature=" == "&" + "Signature" + "="
  {
  }

  /** With a codec and a secret id free of '&', the URL's query splits back into
      the thirteen parameters and the signature; Text unquotes to the UTF-8 of the
      original text and the signature to the Base64 of the HMAC digest. */
  lemma UrlQueryRecoversParams(rq: Request, env: Env, appId: int, hmac: TencentAsr.Hmac)
    requires Lacks(rq.codec, '&') && Lacks(rq.secretId, '&')
    ensures var q := Params(rq, env, appId, Percent.Quote(rq.text)) +
                     [Param("Signature", Percent.Quote(Signature(rq, env, appId, hmac)))];
            ParseQuery(QueryString(q)) == q
    ensures Percent.UnquoteBytes(Percent.Quote(rq.text)) == Some(Utf8.Encode(rq.text))
    ensures Base64.Decode(Signature(rq, env, appId, hmac)) ==
            Some(hmac(Utf8.Encode(rq.secretKey), Utf8.Encode(SigningString(rq, env, appId))))
  {
    var t := Percent.Quote(rq.text);
    var ps := Params(rq, env, appId, t);
    var sig := Signature(rq, env, appId, hmac);
    var p := Param("Signature", Percent.Quote(sig));
    ParamsSeparable(rq, env, appId);
    Percent.QuoteAlphabet(sig);
    assert Lacks("Signature", '&') && Lacks("Signature", '=');
    assert Separable([p]);
    SeparableSnoc(ps, p);
    ParseQueryString(ps + [p]);
    Percent.UnquoteQuote(rq.text);
    Base64.DecodeEncode(hmac(Utf8.Encode(rq.secretKey), Utf8.Encode(SigningString(rq, env, appId))));
  }

  lemma ParamsSeparable(rq: Request, env: Env, appId: int)
    requires Lacks(rq.codec, '&') && Lacks(rq.secretId, '&')
    ensures Separable(Params(rq, env, appId, Percent.Quote(rq.text)))
  {
    var t := Percent.Quote(rq.text);
    var ps := Params(rq, env, appId, t);
    var f := Front(rq, env, appId);
    var b := Back(env);
    Percent.QuoteAlphabet(rq.text);
    FrontValuesLackAmp(rq, env, appId);
    BackValuesLackAmp(env);
    ParamKeysClean();
    ParamsKeys(rq, env, appId, t);
    forall i | 0 <= i < 13 ensures Lacks(ps[i].key, '&') && Lacks(ps[i].key, '=') && Lacks(ps[i].value, '&') {
      assert ps[i].key == Keys(ps)[i] == ParamKeys[i];
      if i < 9 { assert ps[i] == f[i]; }
      else if i > 9 { assert ps[i] == b[i - 10]; }
      else { assert ps[i].value == t; }
    }
  }

  lemma FrontValuesLackAmp(rq: Request, env: Env, appId: int)
    requires Lacks(rq.codec, '&') && Lacks(rq.secretId, '&')
    ensures forall i :: 0 <= i < 9 ==> Lacks(Front(rq, env, appId)[i].value, '&')
  {
    var ps := Front(rq, env, appId);
    forall i | 0 <= i < 9 ensures Lacks(ps[i].value, '&') {
      if i == 1 {
        NumeralLacks(appId, '&');
      } else if i == 4 {
        NumeralLacks(env.ts + rq.expiredSeconds, '&');
      } else if i == 7 {
        NumeralLacks(SessionId(env.sessionUuid), '&');
      } else if i == 0 {
        assert Lacks("TextToStreamAudioWS", '&');
      } else if i == 3 {
        assert Lacks("True", '&');
      } else if i == 5 {
        assert Lacks("16000", '&');
      } else if i == 8 {
        assert Lacks("0", '&');
      }
    }
  }

  lemma BackValuesLackAmp(env: Env)
    ensures forall i :: 0 <= i < 3 ==> Lacks(Back(env)[i].value, '&')
  {
    NumeralLacks(env.ts, '&');
    assert Lacks("101001", '&') && Lacks("0", '&');
  }
}
