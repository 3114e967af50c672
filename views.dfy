/** The HTTP views of api/views.py: the cancel flags, the SSE framer, the chat
    stream proxy (`ChatStreamAPIView`), the hotel search and the `adp_chat_stream`
    endpoint. */
module Views {
  import opened Wrappers
  import opened PyText
  import opened PyJson
  import opened Http
  import Utf8
  import Usage
  import AdpStream

  // ---- cancel flags ----

  /** The Redis database the flags live in, as key/value pairs (TTLs are left out). */
  type Store = map<string, string>

  function CancelKey(sessionId: string): string {
    "cancel:" + sessionId
  }

  /** Different sessions have different flag keys. */
  lemma CancelKeyInjective(a: string, b: string)
    ensures CancelKey(a) == CancelKey(b) ==> a == b
  {
    if CancelKey(a) == CancelKey(b) {
      assert a == CancelKey(a)[7..];
      assert b == CancelKey(b)[7..];
    }
  }

  /** `set_cancel`: store "1" under the session's key. */
  function SetCancel(store: Store, sessionId: string): Store {
    store[CancelKey(sessionId) := "1"]
  }

  /** `is_cancel`: the value stored under the session's key is exactly "1". */
  predicate IsCancel(store: Store, sessionId: string) {
    CancelKey(sessionId) in store && store[CancelKey(sessionId)] == "1"
  }

  /** A set flag is seen by `is_cancel`, and setting it leaves every other
      session's flag as it was. */
  lemma SetThenCancelled(store: Store, sessionId: string, other: string)
    ensures IsCancel(SetCancel(store, sessionId), sessionId)
    ensures other != sessionId ==> (IsCancel(SetCancel(store, sessionId), other) <==> IsCancel(store, other))
  {
    CancelKeyInjective(sessionId, other);
  }

  /** Any other value under the key, and no value, mean "not cancelled". */
  lemma OtherValueNotCancelled(store: Store, sessionId: string, v: string)
    requires v != "1"
    ensures !IsCancel(store[CancelKey(sessionId) := v], sessionId)
    ensures !IsCancel(store - {CancelKey(sessionId)}, sessionId)
  {
  }

  // ---- server-sent events ----

  /** `json.dumps(obj, ensure_ascii=False)` is foreign. */
  type Dumps = Json -> string

  /** `sse(obj)`: one event as UTF-8 octets. */
  function Sse(obj: Json, dumps: Dumps): seq<byte> {
    Utf8.Encode("data: " + dumps(obj) + "\n\n")
  }

  /** The octets of "data: ". */
  const DataPrefix: seq<byte> := [100, 97, 116, 97, 58, 32]

  /** An event is the octets of "data: ", the JSON text's UTF-8 octets, then two
      line feeds. */
  lemma SseFraming(obj: Json, dumps: Dumps)
    ensures Sse(obj, dumps) == DataPrefix + Utf8.Encode(dumps(obj)) + [10, 10]
  {
    Utf8.EncodeAppend("data: " + dumps(obj), "\n\n");
    Utf8.EncodeAppend("data: ", dumps(obj));
    Utf8.EncodeAscii("data: ");
    Utf8.EncodeAscii("\n\n");
    assert Utf8.Encode("data: ") == DataPrefix;
    assert Utf8.Encode("\n\n") == [10, 10];
  }

  // ---- ChatStreamAPIView ----

  /** The fields of a validated `TencentSSESerializer` body the view reads:
      `session_id` and `app` may be absent; `visitor_biz_id` defaults to "default". */
  datatype ChatForm = ChatForm(sessionId: Option<string>, app: Option<string>, visitorBizId: string, content: string)

  /** The bot app key chosen by `app`: 's' and 'd' pick an environment variable;
      any other value assigns nothing, and reading the key then fails. */
  function ChatAppKey(app: Option<string>, keys: AdpStream.AppKeys): Result<Option<string>> {
    if app == Some("s") then Ok(keys.soutui)
    else if app == Some("d") then Ok(keys.disney)
    else Err(UnboundLocalError)
  }

  /** The view agrees with `pick_bot_app_key` on 's' and 'd', and fails where
      the helper would fall back to the Disney key. */
  lemma ChatAppKeyAgainstPick(app: Option<string>, keys: AdpStream.AppKeys)
    ensures ChatAppKey(app, keys).Ok? <==> app == Some("s") || app == Some("d")
    ensures ChatAppKey(app, keys).Ok? ==>
              ChatAppKey(app, keys).value == AdpStream.PickBotAppKey(AdpStream.OptText(app), keys)
    ensures ChatAppKey(app, keys).Err? ==> ChatAppKey(app, keys).exc == UnboundLocalError
  {
  }

  /** `adp_payload`: the form's ids and text, the chosen key, and a fixed
      streaming throttle of 10. */
  function ChatBody(f: ChatForm, keys: AdpStream.AppKeys): Result<Json> {
    match ChatAppKey(f.app, keys)
    case Err(e) => Err(e)
    case Ok(key) =>
      Ok(AdpStream.AdpBody(AdpStream.OptText(f.sessionId), AdpStream.OptText(key),
                           JStr(f.visitorBizId), JStr(f.content), JInt(10)))
  }

  /** The body exists exactly when the app flag picks a key; it carries the
      form's fields and the throttle 10 whatever the form asked for. */
  lemma ChatBodyFields(f: ChatForm, keys: AdpStream.AppKeys)
    ensures ChatBody(f, keys).Ok? <==> f.app == Some("s") || f.app == Some("d")
    ensures ChatBody(f, keys).Err? ==> ChatBody(f, keys).exc == UnboundLocalError
    ensures ChatBody(f, keys).Ok? ==>
              var p := ChatBody(f, keys).value;
              p.JObj? && p.fields.Keys == AdpStream.BodyKeys &&
              p.fields["streaming_throttle"] == JInt(10) && p.fields["content"] == JStr(f.content) &&
              p.fields["bot_app_key"] == AdpStream.OptText(ChatAppKey(f.app, keys).value) &&
              p.fields["session_id"] == AdpStream.OptText(f.sessionId)
  {
    ChatAppKeyAgainstPick(f.app, keys);
    if ChatBody(f, keys).Ok? {
      var k := ChatAppKey(f.app, keys).value;
      AdpStream.AdpBodyFields(AdpStream.OptText(f.sessionId), AdpStream.OptText(k),
                              JStr(f.visitorBizId), JStr(f.content), JInt(10));
    }
  }

  /** `f"{session_id}"`: an absent id renders as "None". */
  function SessionText(o: Option<string>): string {
    match o
    case None => "None"
    case Some(s) => s
  }

  /** A body line as `iter_lines(decode_unicode=False)` yields it, with the
      cancel flags as they stand when the loop reaches that line. */
  datatype Polled = Polled(line: seq<byte>, flags: Store)

  /** `str(e)` of a requests exception is foreign. */
  type Describe = Exc -> string

  const UnreadableBody: string := "<unable to read body>"

  /** The event for an upstream status of 400 or more: the status and at most
      800 characters of the body. */
  function HttpErrorEvent(status: int, body: string): Json {
    JObj(map["type" := JStr("error"), "stage" := JStr("adp_http"),
             "status" := JInt(status), "body" := JStr(Take(body, 800))])
  }

  function RequestsErrorEvent(message: string): Json {
    JObj(map["type" := JStr("error"), "stage" := JStr("requests"), "message" := JStr(message)])
  }

  const CancelledEvent: Json := JObj(map["type" := JStr("cancelled")])

  /** What the line loop sends, and whether it stopped on a cancel flag. */
  datatype Relay = Relay(chunks: seq<seq<byte>>, cancelled: bool)

  /** The line loop: the cancel check comes first and ends the loop with one
      "cancelled" event; empty lines are skipped; any other line is sent as it
      came with a blank line after it. */
  function RelayLines(lines: seq<Polled>, sessionId: string, dumps: Dumps): Relay
    decreases |lines|
  {
    if lines == [] then Relay([], false)
    else if IsCancel(lines[0].flags, sessionId) then Relay([Sse(CancelledEvent, dumps)], true)
    else
      var rest := RelayLines(lines[1..], sessionId, dumps);
      if lines[0].line == [] then rest else Relay([lines[0].line + [10, 10]] + rest.chunks, rest.cancelled)
  }

  /** What the generator sends, how many tool calls it counts, and whether it
      marks the request failed. */
  datatype Streamed = Streamed(chunks: seq<seq<byte>>, toolCalls: int, failed: bool)

  /** `event_stream` of `ChatStreamAPIView`. A request that never got a response
      and a body cut short by a requests exception end in a "requests" error event
      and mark the request failed; a status of 400 or more ends in one
      "adp_http" event. */
  function ChatStream(x: Exchange<Polled>, sessionId: string, dumps: Dumps, describe: Describe): Streamed {
    match x
    case Unreachable(e) => Streamed([Sse(RequestsErrorEvent(describe(e)), dumps)], 0, true)
    case Response(status, text, lines, failure) =>
      if status >= 400 then
        var body := match text case None => UnreadableBody case Some(t) => t;
        Streamed([Sse(HttpErrorEvent(status, body), dumps)], 1, false)
      else
        var r := RelayLines(lines, sessionId, dumps);
        if !r.cancelled && failure.Some? then
          Streamed(r.chunks + [Sse(RequestsErrorEvent(describe(failure.value)), dumps)], 1, true)
        else Streamed(r.chunks, 1, false)
  }

  /** One turn of the loop, seen from the lines still to read. */
  lemma RelayStep(lines: seq<Polled>, i: nat, sessionId: string, dumps: Dumps)
    requires i < |lines|
    ensures var here := RelayLines(lines[i..], sessionId, dumps);
            var next := RelayLines(lines[i + 1..], sessionId, dumps);
            here == if IsCancel(lines[i].flags, sessionId) then Relay([Sse(CancelledEvent, dumps)], true)
                    else if lines[i].line == [] then next
                    else Relay([lines[i].line + [10, 10]] + next.chunks, next.cancelled)
  {
    assert lines[i..][0] == lines[i] && lines[i..][1..] == lines[i + 1..];
  }

  /** The `for line in resp.iter_lines(...)` loop. */
  method RelayLoop(lines: seq<Polled>, sessionId: string, dumps: Dumps) returns (chunks: seq<seq<byte>>, cancelled: bool)
    ensures Relay(chunks, cancelled) == RelayLines(lines, sessionId, dumps)
  {
    ghost var whole := RelayLines(lines, sessionId, dumps);
    chunks := [];
    cancelled := false;
    var i := 0;
    assert lines[0..] == lines;
    while i < |lines| && !cancelled
      invariant 0 <= i <= |lines|
      invariant !cancelled ==> chunks + RelayLines(lines[i..], sessionId, dumps).chunks == whole.chunks
      invariant !cancelled ==> RelayLines(lines[i..], sessionId, dumps).cancelled == whole.cancelled
      invariant cancelled ==> Relay(chunks, cancelled) == whole
      decreases |lines| - i, if cancelled then 0 else 1
    {
      RelayStep(lines, i, sessionId, dumps);
      if IsCancel(lines[i].flags, sessionId) {
        chunks := chunks + [Sse(CancelledEvent, dumps)];
        cancelled := true;
      } else {
        if lines[i].line != [] {
          ghost var next := RelayLines(lines[i + 1..], sessionId, dumps);
          assert chunks + ([lines[i].line + [10, 10]] + next.chunks) == (chunks + [lines[i].line + [10, 10]]) + next.chunks;
          chunks := chunks + [lines[i].line + [10, 10]];
        }
        i := i + 1;
      }
    }
    if !cancelled {
      assert lines[i..] == [];
    }
  }

  /** `event_stream` with its usage recorder: one tool call once a response
      arrives, failure marked by a requests exception, and one commit at the end
      whatever happened. */
  method EventStream(x: Exchange<Polled>, sessionId: string, dumps: Dumps, describe: Describe, rec: Usage.Recorder)
    returns (chunks: seq<seq<byte>>)
    modifies rec
    ensures var t := ChatStream(x, sessionId, dumps, describe);
            chunks == t.chunks &&
            rec.toolCalls == old(rec.toolCalls) + t.toolCalls &&
            rec.success == (old(rec.success) && !t.failed) &&
            rec.committed == old(rec.committed) + [rec.Snapshot()]
    ensures rec.clientId == old(rec.clientId) && rec.endpoint == old(rec.endpoint) && rec.session == old(rec.session)
  {
    if x.Unreachable? {
      rec.MarkFailed();
      chunks := [Sse(RequestsErrorEvent(describe(x.exc)), dumps)];
    } else {
      rec.IncTool(1);
      if x.status >= 400 {
        var body := if x.text.Some? then x.text.value else UnreadableBody;
        chunks := [Sse(HttpErrorEvent(x.status, body), dumps)];
      } else {
        var cancelled;
        chunks, cancelled := RelayLoop(x.lines, sessionId, dumps);
        if !cancelled && x.failure.Some? {
          rec.MarkFailed();
          chunks := chunks + [Sse(RequestsErrorEvent(describe(x.failure.value)), dumps)];
        }
      }
    }
    rec.Commit();
  }

  /** `ChatStreamAPIView.post`: a fresh recorder for "chat_stream"; an app flag
      that picks no key fails before anything is streamed or committed. */
  method ChatStreamPost(clientId: string, f: ChatForm, keys: AdpStream.AppKeys, x: Exchange<Polled>,
                        dumps: Dumps, describe: Describe)
    returns (body: Result<Json>, chunks: seq<seq<byte>>, rec: Usage.Recorder)
    ensures fresh(rec)
    ensures body == ChatBody(f, keys)
    ensures body.Err? ==> chunks == [] && rec.committed == []
    ensures body.Ok? ==>
              var t := ChatStream(x, SessionText(f.sessionId), dumps, describe);
              chunks == t.chunks &&
              rec.committed == [Usage.Record(clientId, "chat_stream", None, !t.failed, t.toolCalls)]
  {
    rec := new Usage.Recorder(clientId, "chat_stream", None);
    body := ChatBody(f, keys);
    if body.Err? {
      return body, [], rec;
    }
    chunks := EventStream(x, SessionText(f.sessionId), dumps, describe, rec);
  }

  // ---- properties of the chat relay ----

  /** A status of 400 or more gives exactly one event, carrying the status and
      the first 800 characters of the body. */
  lemma HttpErrorOnly(status: int, text: Option<string>, lines: seq<Polled>, failure: Option<Exc>,
                      sessionId: string, dumps: Dumps, describe: Describe)
    requires status >= 400
    ensures var t := ChatStream(Response(status, text, lines, failure), sessionId, dumps, describe);
            |t.chunks| == 1 && !t.failed && t.toolCalls == 1 &&
            t.chunks[0] == Sse(HttpErrorEvent(status, if text.Some? then text.value else UnreadableBody), dumps)
    ensures text.Some? ==> (var b := Take(text.value, 800); |b| <= 800 && b <= text.value)
  {
  }

  /** The loop over a concatenation: the second part is reached only when the
      first did not stop on a cancel flag. */
  lemma {:induction false} RelayAppend(a: seq<Polled>, b: seq<Polled>, sessionId: string, dumps: Dumps)
    ensures var ra := RelayLines(a, sessionId, dumps);
            RelayLines(a + b, sessionId, dumps) ==
              if ra.cancelled then ra
              else Relay(ra.chunks + RelayLines(b, sessionId, dumps).chunks, RelayLines(b, sessionId, dumps).cancelled)
    decreases |a|
  {
    if a == [] {
      assert a + b == b;
    } else {
      RelayAppend(a[1..], b, sessionId, dumps);
      assert (a + b)[0] == a[0] && (a + b)[1..] == a[1..] + b;
    }
  }

  /** One line on its own: cancelled, skipped or forwarded with "\n\n". */
  lemma RelayOne(p: Polled, sessionId: string, dumps: Dumps)
    ensures IsCancel(p.flags, sessionId) ==> RelayLines([p], sessionId, dumps) == Relay([Sse(CancelledEvent, dumps)], true)
    ensures !IsCancel(p.flags, sessionId) && p.line == [] ==> RelayLines([p], sessionId, dumps) == Relay([], false)
    ensures !IsCancel(p.flags, sessionId) && p.line != [] ==> RelayLines([p], sessionId, dumps) == Relay([p.line + [10, 10]], false)
  {
    assert [p][1..] == [];
  }

  /** Once the flag is seen, one "cancelled" event is the last thing sent:
      nothing from the rest of the body follows. */
  lemma CancelEndsStream(a: seq<Polled>, p: Polled, b: seq<Polled>, sessionId: string, dumps: Dumps)
    requires !RelayLines(a, sessionId, dumps).cancelled && IsCancel(p.flags, sessionId)
    ensures RelayLines(a + [p] + b, sessionId, dumps) ==
              Relay(RelayLines(a, sessionId, dumps).chunks + [Sse(CancelledEvent, dumps)], true)
  {
    RelayAppend(a + [p], b, sessionId, dumps);
    RelayAppend(a, [p], sessionId, dumps);
    RelayOne(p, sessionId, dumps);
  }

  /** Without a cancel flag, the loop stops only when the lines run out, and a
      body error after them produces the "requests" event and the failure mark. */
  lemma {:induction false} NoFlagNoCancel(lines: seq<Polled>, sessionId: string, dumps: Dumps)
    requires forall i :: 0 <= i < |lines| ==> !IsCancel(lines[i].flags, sessionId)
    ensures !RelayLines(lines, sessionId, dumps).cancelled
    ensures |RelayLines(lines, sessionId, dumps).chunks| <= |lines|
    decreases |lines|
  {
    if lines != [] {
      assert forall i :: 0 <= i < |lines[1..]| ==> lines[1..][i] == lines[i + 1];
      NoFlagNoCancel(lines[1..], sessionId, dumps);
    }
  }

  // ---- HotelSearchAPIView ----

  /** A row of the hotel table; `hotel_id` is the primary key. */
  datatype Hotel = Hotel(hotelId: string, name: Option<string>, brand: Option<string>, businessArea: Option<string>)

  /** A row of the offer table. Prices are decimals with two places, kept exactly
      in hundredths; None is NULL. */
  datatype Offer = Offer(hotelId: string, roomType: Option<string>, offerName: Option<string>,
                         originPrice: Option<int>, offerPrice: Option<int>, breakfast: Option<string>)

  /** The database: the hotel `filter(name=...).first()` finds for each name,
      and the offer table in queryset order. */
  datatype Db = Db(hotelsByName: map<string, Hotel>, offers: seq<Offer>)

  datatype OfferView = OfferView(roomType: Option<string>, offerName: Option<string>,
                                 originPrice: Option<int>, offerPrice: Option<int>, breakfast: Option<string>)

  datatype HotelView = HotelView(hotelId: string, name: Option<string>, brand: Option<string>,
                                 businessArea: Option<string>, minOfferPrice: Option<int>, offers: seq<OfferView>)

  /** The id used for the offer lookup: one leading "0" is dropped, and only one. */
  function LookupId(hotelId: string): (r: string)
    ensures StartsWith(hotelId, "0") ==> |r| == |hotelId| - 1 && "0" + r == hotelId
    ensures !StartsWith(hotelId, "0") ==> r == hotelId
  {
    if hotelId != "" && hotelId[0] == '0' then hotelId[1..] else hotelId
  }

  /** `float(p) if p else None`: a NULL or zero price is reported as None. */
  function Shown(p: Option<int>): (r: Option<int>)
    ensures r.Some? <==> p.Some? && p.value != 0
    ensures r.Some? ==> r == p
  {
    if p.Some? && p.value != 0 then p else None
  }

  function ShowOffer(o: Offer): OfferView {
    OfferView(o.roomType, o.offerName, Shown(o.originPrice), Shown(o.offerPrice), o.breakfast)
  }

  /** `HotelRoomOffer.objects.filter(hotel_id=hid)`, in table order. */
  function OffersFor(table: seq<Offer>, hid: string): seq<Offer>
    decreases |table|
  {
    if table == [] then []
    else (if table[0].hotelId == hid then [table[0]] else []) + OffersFor(table[1..], hid)
  }

  /** The filter keeps exactly the rows of that hotel, in their order. */
  lemma {:induction false} OffersForSpec(table: seq<Offer>, hid: string)
    ensures forall o :: o in OffersFor(table, hid) <==> o in table && o.hotelId == hid
    ensures |OffersFor(table, hid)| <= |table|
    decreases |table|
  {
    if table != [] {
      OffersForSpec(table[1..], hid);
      assert table == [table[0]] + table[1..];
    }
  }

  lemma {:induction false} OffersForAppend(a: seq<Offer>, b: seq<Offer>, hid: string)
    ensures OffersFor(a + b, hid) == OffersFor(a, hid) + OffersFor(b, hid)
    decreases |a|
  {
    if a == [] {
      assert a + b == b;
    } else {
      OffersForAppend(a[1..], b, hid);
      assert (a + b)[0] == a[0] && (a + b)[1..] == a[1..] + b;
    }
  }

  /** SQL `MIN(room_offer_price)` over the rows: NULLs are ignored, and no
      priced row gives NULL. */
  function MinPrice(os: seq<Offer>): Option<int>
    decreases |os|
  {
    if os == [] then None
    else
      var rest := MinPrice(os[1..]);
      match os[0].offerPrice
      case None => rest
      case Some(p) => if rest.Some? && rest.value < p then rest else Some(p)
  }

  /** The minimum is a price of one of the rows and no row is cheaper; it is
      NULL exactly when no row has a price. */
  lemma {:induction false} MinPriceIsLeast(os: seq<Offer>)
    ensures MinPrice(os).None? <==> forall i :: 0 <= i < |os| ==> os[i].offerPrice.None?
    ensures MinPrice(os).Some? ==> exists i :: 0 <= i < |os| && os[i].offerPrice == MinPrice(os)
    ensures MinPrice(os).Some? ==>
              forall i :: 0 <= i < |os| && os[i].offerPrice.Some? ==> MinPrice(os).value <= os[i].offerPrice.value
    decreases |os|
  {
    if os != [] {
      MinPriceIsLeast(os[1..]);
      assert forall i :: 1 <= i < |os| ==> os[i] == os[1..][i - 1];
      var rest := MinPrice(os[1..]);
      if rest.Some? {
        var j :| 0 <= j < |os[1..]| && os[1..][j].offerPrice == rest;
        assert os[j + 1].offerPrice == rest;
      }
    }
  }

  /** One found hotel: its original id, the first 50 offers of the normalised id,
      and the minimum over all of them. */
  function ShowHotel(h: Hotel, table: seq<Offer>): HotelView {
    var os := OffersFor(table, LookupId(h.hotelId));
    var listed := Take(os, 50);
    HotelView(h.hotelId, h.name, h.brand, h.businessArea, Shown(MinPrice(os)),
              seq(|listed|, i requires 0 <= i < |listed| => ShowOffer(listed[i])))
  }

  /** The shaping of one hotel: the reported id is the stored one, at most 50
      offers are listed, in table order, and the minimum price ranges over every
      offer of the hotel, listed or not. */
  lemma ShowHotelShape(h: Hotel, table: seq<Offer>)
    ensures var v := ShowHotel(h, table);
            var os := OffersFor(table, LookupId(h.hotelId));
            v.hotelId == h.hotelId && v.name == h.name &&
            |v.offers| == (if |os| < 50 then |os| else 50) &&
            (forall i :: 0 <= i < |v.offers| ==> v.offers[i] == ShowOffer(os[i])) &&
            v.minOfferPrice == Shown(MinPrice(os))
  {
  }

  /** The result list: one entry per name whose stripped form finds a hotel,
      in the order of the names. */
  function Found(names: seq<string>, db: Db): seq<HotelView>
    decreases |names|
  {
    if names == [] then [] else FoundOne(names[0], db) + Found(names[1..], db)
  }

  /** The entry for one name, if its stripped form finds a hotel. */
  function FoundOne(name: string, db: Db): seq<HotelView> {
    var key := Strip(name);
    if key in db.hotelsByName then [ShowHotel(db.hotelsByName[key], db.offers)] else []
  }

  /** Results keep the order of the names: the list for a concatenation is the
      concatenation of the lists. */
  lemma {:induction false} FoundAppend(a: seq<string>, b: seq<string>, db: Db)
    ensures Found(a + b, db) == Found(a, db) + Found(b, db)
    decreases |a|
  {
    if a == [] {
      assert a + b == b;
    } else {
      calc {
        Found(a + b, db);
        { assert (a + b)[0] == a[0] && (a + b)[1..] == a[1..] + b; }
        FoundOne(a[0], db) + Found(a[1..] + b, db);
        { FoundAppend(a[1..], b, db); }
        FoundOne(a[0], db) + (Found(a[1..], db) + Found(b, db));
        Found(a, db) + Found(b, db);
      }
    }
  }

  /** Unknown names are skipped, so there are never more results than names;
      surrounding whitespace does not matter. */
  lemma {:induction false} FoundBound(names: seq<string>, db: Db)
    ensures |Found(names, db)| <= |names|
    ensures (forall i :: 0 <= i < |names| ==> Strip(names[i]) !in db.hotelsByName) ==> Found(names, db) == []
    decreases |names|
  {
    if names != [] {
      assert forall i :: 0 <= i < |names[1..]| ==> names[1..][i] == names[i + 1];
      FoundBound(names[1..], db);
    }
  }

  /** The `for hotel_name in hotel_name_list` loop. */
  method Search(names: seq<string>, db: Db) returns (result: seq<HotelView>)
    ensures result == Found(names, db)
  {
    result := [];
    var i := 0;
    while i < |names|
      invariant 0 <= i <= |names|
      invariant result == Found(names[..i], db)
    {
      var key := Strip(names[i]);
      FoundAppend(names[..i], [names[i]], db);
      assert names[..i + 1] == names[..i] + [names[i]];
      if key in db.hotelsByName {
        result := result + [ShowHotel(db.hotelsByName[key], db.offers)];
      }
      i := i + 1;
    }
    assert names[..i] == names;
  }

  /** `HotelSearchAPIView.post`. `names` is the validated `hotel_name` list, or
      None when the serializer rejects the body; either way one usage record is
      committed, failed exactly when validation failed. */
  method HotelSearchPost(clientId: string, names: Option<seq<string>>, db: Db)
    returns (r: Result<seq<HotelView>>, rec: Usage.Recorder)
    ensures fresh(rec)
    ensures names.None? ==> r == Err(ValidationError)
    ensures names.Some? ==> r == Ok(Found(names.value, db))
    ensures rec.committed == [Usage.Record(clientId, "hotel_search", None, r.Ok?, 0)]
  {
    rec := new Usage.Recorder(clientId, "hotel_search", None);
    if names.None? {
      rec.MarkFailed();
      r := Err(ValidationError);
    } else {
      var result := Search(names.value, db);
      r := Ok(result);
    }
    rec.Commit();
  }

  // ---- adp_chat_stream ----

  /** The request body: `json.loads` of the UTF-8 text, then `body["app"]`,
      `body["session_id"]`, the key the flag chose (unassigned unless 's' or
      'd'), `body["visitor_biz_id"]`, `body["content"]`, and the throttle with
      its default 10. */
  function AdpChatBody(body: Decoded, keys: AdpStream.AppKeys): Result<Json> {
    match body
    case NotJson => Err(JsonDecodeError)
    case Value(b) =>
      match Subscript(b, "app")
      case Err(e) => Err(e)
      case Ok(app) =>
        var key := if app == JStr("s") then Some(keys.soutui) else if app == JStr("d") then Some(keys.disney) else None;
        match Subscript(b, "session_id")
        case Err(e) => Err(e)
        case Ok(sid) =>
          if key.None? then Err(UnboundLocalError)
          else
            match Subscript(b, "visitor_biz_id")
            case Err(e) => Err(e)
            case Ok(vid) =>
              match Subscript(b, "content")
              case Err(e) => Err(e)
              case Ok(content) =>
                Ok(AdpStream.AdpBody(sid, AdpStream.OptText(key.value), vid, content,
                                     Get(b, "streaming_throttle", JInt(10)).value))
  }

  /** A body with all four keys and app 's' or 'd' gives the payload: the
      session, visitor and content pass on, the flag picks the agent key, and
      the throttle is the caller's when given, 10 otherwise. A missing "app" or
      "session_id" raises KeyError, another app flag then raises once the key
      is read, and a missing "visitor_biz_id" or "content" raises KeyError. */
  lemma AdpChatBodySpec(fields: map<string, Json>, keys: AdpStream.AppKeys)
    ensures var r := AdpChatBody(Value(JObj(fields)), keys);
            ("app" !in fields ==> r == Err(KeyError)) &&
            ("app" in fields && "session_id" !in fields ==> r == Err(KeyError))
    ensures var r := AdpChatBody(Value(JObj(fields)), keys);
            "app" in fields && "session_id" in fields ==>
              (fields["app"] != JStr("s") && fields["app"] != JStr("d") ==> r == Err(UnboundLocalError)) &&
              ((fields["app"] == JStr("s") || fields["app"] == JStr("d")) ==>
                 ("visitor_biz_id" !in fields || "content" !in fields ==> r == Err(KeyError)) &&
                 (r.Ok? <==> "visitor_biz_id" in fields && "content" in fields))
    ensures var r := AdpChatBody(Value(JObj(fields)), keys);
            r.Ok? ==>
              "app" in fields && "session_id" in fields && "visitor_biz_id" in fields && "content" in fields &&
              r.value.JObj? && r.value.fields.Keys == AdpStream.BodyKeys &&
              r.value.fields["bot_app_key"] ==
                AdpStream.OptText(if fields["app"] == JStr("s") then keys.soutui else keys.disney) &&
              r.value.fields["streaming_throttle"] ==
                (if "streaming_throttle" in fields then fields["streaming_throttle"] else JInt(10)) &&
              r.value.fields["session_id"] == fields["session_id"] &&
              r.value.fields["visitor_biz_id"] == fields["visitor_biz_id"] &&
              r.value.fields["content"] == fields["content"]
  {
    var r := AdpChatBody(Value(JObj(fields)), keys);
    if r.Ok? {
      var app := fields["app"];
      var key := if app == JStr("s") then keys.soutui else keys.disney;
      AdpStream.AdpBodyFields(fields["session_id"], AdpStream.OptText(key), fields["visitor_biz_id"],
                              fields["content"], Get(JObj(fields), "streaming_throttle", JInt(10)).value);
    }
  }

  /** The delta frame one decoded event produces, if any. */
  type Framer = Json -> Option<Json>

  /** `obj.get("type") == "reply"`, then `obj.get("payload", {}).get("content", "")`
      when truthy; Err for a lookup that raises. */
  function ReplyText(obj: Json): Result<Option<Json>> {
    match Get(obj, "type", JNull)
    case Err(e) => Err(e)
    case Ok(t) =>
      if t != JStr("reply") then Ok(None)
      else
        match Get(Get(obj, "payload", JObj(map[])).value, "content", JStr(""))
        case Err(e) => Err(e)
        case Ok(text) => Ok(if Truthy(text) then Some(text) else None)
  }

  /** Line 297 as written: `{'delta': text['payload']['content']}`; the
      exception from indexing is swallowed by the surrounding `except`. */
  function DeltaFrameAsWritten(obj: Json): Option<Json> {
    match ReplyText(obj)
    case Err(_) => None
    case Ok(None) => None
    case Ok(Some(text)) =>
      match Subscript(text, "payload")
      case Err(_) => None
      case Ok(p) =>
        match Subscript(p, "content")
        case Err(_) => None
        case Ok(c) => Some(JObj(map["delta" := c]))
  }

  /** The frame the endpoint is meant to send: `{'delta': text}`. */
  function DeltaFrame(obj: Json): Option<Json> {
    match ReplyText(obj)
    case Err(_) => None
    case Ok(None) => None
    case Ok(Some(text)) => Some(JObj(map["delta" := text]))
  }

  const DoneFrame: string := "data: [DONE]\n\n"

  /** One text line, read as the data lines the loop is written for: empty and
      non-"data:" lines are skipped, "[DONE]" stops, undecodable data is skipped,
      and a framed event becomes one SSE chunk. */
  function ChatStep(line: string, loads: Loads, dumps: Dumps, frame: Framer): AdpStream.Step {
    if line == [] || !StartsWith(line, "data:") then AdpStream.Skip
    else if AdpStream.DataOf(line) == "[DONE]" then AdpStream.Stop
    else
      match loads(AdpStream.DataOf(line))
      case NotJson => AdpStream.Skip
      case Value(obj) =>
        match frame(obj)
        case None => AdpStream.Skip
        case Some(f) => AdpStream.Yield("data: " + dumps(f) + "\n\n")
  }

  function ChatSteps(lines: seq<string>, loads: Loads, dumps: Dumps, frame: Framer): (r: seq<AdpStream.Step>)
    ensures |r| == |lines|
    decreases |lines|
  {
    if lines == [] then [] else [ChatStep(lines[0], loads, dumps, frame)] + ChatSteps(lines[1..], loads, dumps, frame)
  }

  lemma {:induction false} ChatStepAt(lines: seq<string>, loads: Loads, dumps: Dumps, frame: Framer, i: nat)
    requires i < |lines|
    ensures ChatSteps(lines, loads, dumps, frame)[i] == ChatStep(lines[i], loads, dumps, frame)
    decreases i
  {
    if i > 0 {
      ChatStepAt(lines[1..], loads, dumps, frame, i - 1);
    }
  }

  /** What the endpoint's generator sends, and the exception that ends it, if any. */
  datatype Sent = Sent(chunks: seq<string>, raised: Option<Exc>)

  /** After the loop: an escaped exception ends the generator; so does a body
      error when the lines ran out; otherwise "data: [DONE]" closes the stream. */
  function Close(r: AdpStream.Outcome, failure: Option<Exc>): Sent {
    match r.end
    case Raised(e) => Sent(r.deltas, Some(e))
    case Exhausted => if failure.Some? then Sent(r.deltas, failure) else Sent(r.deltas + [DoneFrame], None)
    case Done => Sent(r.deltas + [DoneFrame], None)
  }

  /** `adp_chat_stream`'s generator with the line treated as text throughout:
      the data-line prefix is compared as a str and the data after it is
      stripped without a `.decode`; the framer is given and `raise_for_status`
      admits only 2xx. */
  function AdpChat(x: Exchange<string>, loads: Loads, dumps: Dumps, frame: Framer): Sent {
    match x
    case Unreachable(e) => Sent([], Some(e))
    case Response(status, _, lines, failure) =>
      if !IsSuccess(status) then Sent([], Some(HttpStatusError(status)))
      else Close(AdpStream.Fold(ChatSteps(lines, loads, dumps, frame)), failure)
  }

  /** Line 284 as written: the text line is compared with the bytes `b"data:"`,
      which raises TypeError outside the `try`, for every non-empty line. */
  function StrLineStep(line: string): AdpStream.Step {
    if line == [] then AdpStream.Skip else AdpStream.Raise(TypeError)
  }

  function StrLineSteps(lines: seq<string>): (r: seq<AdpStream.Step>)
    ensures |r| == |lines|
    decreases |lines|
  {
    if lines == [] then [] else [StrLineStep(lines[0])] + StrLineSteps(lines[1..])
  }

  /** The generator as written. */
  function AdpChatAsWritten(x: Exchange<string>): Sent {
    match x
    case Unreachable(e) => Sent([], Some(e))
    case Response(status, _, lines, failure) =>
      if !IsSuccess(status) then Sent([], Some(HttpStatusError(status)))
      else Close(AdpStream.Fold(StrLineSteps(lines)), failure)
  }

  /** As written, the first non-empty line raises TypeError before anything is
      sent; only a body of empty lines reaches "data: [DONE]". */
  lemma {:induction false} AsWrittenRaisesOnFirstLine(lines: seq<string>)
    ensures (exists i :: 0 <= i < |lines| && lines[i] != []) ==>
              AdpStream.Fold(StrLineSteps(lines)) == AdpStream.Outcome([], AdpStream.Raised(TypeError))
    ensures (forall i :: 0 <= i < |lines| ==> lines[i] == []) ==>
              AdpStream.Fold(StrLineSteps(lines)) == AdpStream.Outcome([], AdpStream.Exhausted)
    decreases |lines|
  {
    if lines != [] {
      AsWrittenRaisesOnFirstLine(lines[1..]);
      assert forall i :: 1 <= i < |lines| ==> lines[i] == lines[1..][i - 1];
      if lines[0] == [] && exists i :: 0 <= i < |lines| && lines[i] != [] {
        var i :| 0 <= i < |lines| && lines[i] != [];
        assert lines[1..][i - 1] != [];
      }
    }
  }

  /** So a successful response with a "data:" line reports TypeError and sends nothing. */
  lemma AsWrittenSendsNothing(status: int, text: Option<string>, lines: seq<string>, failure: Option<Exc>, k: nat)
    requires IsSuccess(status) && k < |lines| && StartsWith(lines[k], "data:")
    ensures AdpChatAsWritten(Response(status, text, lines, failure)) == Sent([], Some(TypeError))
  {
    AsWrittenRaisesOnFirstLine(lines);
  }

  /** A reply whose content is text: as written, indexing the text swallows the
      delta; the intended frame carries the text. */
  lemma TextReplyLostAsWritten(obj: Json, s: string)
    requires ReplyText(obj) == Ok(Some(JStr(s)))
    ensures DeltaFrameAsWritten(obj) == None
    ensures DeltaFrame(obj) == Some(JObj(map["delta" := JStr(s)]))
  {
  }

  /** Lines whose decoded replies never carry a dict as content. */
  predicate NoDictReplies(lines: seq<string>, loads: Loads) {
    forall i :: 0 <= i < |lines| ==>
      match loads(AdpStream.DataOf(lines[i]))
      case NotJson => true
      case Value(obj) => !(ReplyText(obj).Ok? && ReplyText(obj).value.Some? && ReplyText(obj).value.value.JObj?)
  }

  /** With line 297 as written, a stream whose reply contents are strings (or
      anything but a dict) yields nothing but the closing "data: [DONE]". */
  lemma {:induction false} AsWrittenFrameYieldsNothing(lines: seq<string>, loads: Loads, dumps: Dumps)
    requires NoDictReplies(lines, loads)
    ensures AdpStream.Fold(ChatSteps(lines, loads, dumps, DeltaFrameAsWritten)).deltas == []
    ensures !AdpStream.Fold(ChatSteps(lines, loads, dumps, DeltaFrameAsWritten)).end.Raised?
    decreases |lines|
  {
    if lines != [] {
      assert NoDictReplies(lines[1..], loads) by {
        forall i | 0 <= i < |lines[1..]| ensures lines[1..][i] == lines[i + 1] { }
      }
      AsWrittenFrameYieldsNothing(lines[1..], loads, dumps);
      assert ChatSteps(lines, loads, dumps, DeltaFrameAsWritten)[1..] == ChatSteps(lines[1..], loads, dumps, DeltaFrameAsWritten);
      assert !ChatStep(lines[0], loads, dumps, DeltaFrameAsWritten).Yield? by {
        assert 0 < |lines|;
      }
    }
  }

  lemma AsWrittenOnlyDone(status: int, text: Option<string>, lines: seq<string>, loads: Loads, dumps: Dumps)
    requires IsSuccess(status) && NoDictReplies(lines, loads)
    ensures AdpChat(Response(status, text, lines, None), loads, dumps, DeltaFrameAsWritten) == Sent([DoneFrame], None)
  {
    AsWrittenFrameYieldsNothing(lines, loads, dumps);
  }

  /** The intended generator: each reply event with truthy content sends one
      `{"delta": content}` event, in line order. */
  lemma ReplyLineSent(line: string, loads: Loads, dumps: Dumps, payload: map<string, Json>, content: Json)
    requires StartsWith(line, "data:") && AdpStream.DataOf(line) != "[DONE]"
    requires loads(AdpStream.DataOf(line)) == Value(JObj(map["type" := JStr("reply"), "payload" := JObj(payload)]))
    requires "content" in payload && payload["content"] == content && Truthy(content)
    ensures ChatStep(line, loads, dumps, DeltaFrame) == AdpStream.Yield("data: " + dumps(JObj(map["delta" := content])) + "\n\n")
  {
  }

  /** Unless an exception escapes, the stream ends with exactly one
      "data: [DONE]", after every delta. */
  lemma ClosedByDone(x: Exchange<string>, loads: Loads, dumps: Dumps, frame: Framer)
    requires AdpChat(x, loads, dumps, frame).raised.None?
    ensures var s := AdpChat(x, loads, dumps, frame);
            |s.chunks| >= 1 && s.chunks[|s.chunks| - 1] == DoneFrame &&
            s.chunks[..|s.chunks| - 1] == AdpStream.Fold(ChatSteps(x.lines, loads, dumps, frame)).deltas
  {
    var s := AdpChat(x, loads, dumps, frame);
    var r := AdpStream.Fold(ChatSteps(x.lines, loads, dumps, frame));
    assert s.chunks == r.deltas + [DoneFrame];
    assert (r.deltas + [DoneFrame])[..|r.deltas|] == r.deltas;
  }

  /** The generator's `for line in resp.iter_lines():` loop, with the
      prefix compared as text: the chunks it sends and whether it returned at
      "[DONE]" (the steps never raise, so the fold ends one of these two ways). */
  method ChatLines(lines: seq<string>, loads: Loads, dumps: Dumps, frame: Framer)
    returns (chunks: seq<string>, done: bool)
    ensures chunks == AdpStream.Fold(ChatSteps(lines, loads, dumps, frame)).deltas
    ensures AdpStream.Fold(ChatSteps(lines, loads, dumps, frame)).end == if done then AdpStream.Done else AdpStream.Exhausted
  {
    ghost var steps := ChatSteps(lines, loads, dumps, frame);
    chunks := [];
    var i := 0;
    while i < |lines|
      invariant 0 <= i <= |lines|
      invariant chunks + AdpStream.Fold(steps[i..]).deltas == AdpStream.Fold(steps).deltas
      invariant AdpStream.Fold(steps[i..]).end == AdpStream.Fold(steps).end
      decreases |lines| - i
    {
      var step := ChatStep(lines[i], loads, dumps, frame);
      ChatStepAt(lines, loads, dumps, frame, i);
      AdpStream.FoldAt(steps, i);
      if step.Stop? {
        assert chunks + [] == chunks;
        return chunks, true;
      }
      if step.Yield? {
        assert chunks + ([step.delta] + AdpStream.Fold(steps[i + 1..]).deltas) ==
               (chunks + [step.delta]) + AdpStream.Fold(steps[i + 1..]).deltas;
        chunks := chunks + [step.delta];
      }
      i := i + 1;
    }
    assert steps[i..] == [];
    assert chunks + [] == chunks;
    done := false;
  }

  /** `adp_chat_stream`'s generator: the status checks, the line loop, then
      the closing "data: [DONE]" or the body error; `frame` is the delta rule
      of line 297, `DeltaFrame` as intended. */
  method AdpChatEventStream(x: Exchange<string>, loads: Loads, dumps: Dumps, frame: Framer)
    returns (chunks: seq<string>, raised: Option<Exc>)
    ensures Sent(chunks, raised) == AdpChat(x, loads, dumps, frame)
  {
    if x.Unreachable? {
      return [], Some(x.exc);
    }
    if !IsSuccess(x.status) {
      return [], Some(HttpStatusError(x.status));
    }
    var done;
    chunks, done := ChatLines(x.lines, loads, dumps, frame);
    if done {
      return chunks + [DoneFrame], None;
    }
    if x.failure.Some? {
      return chunks, x.failure;
    }
    chunks, raised := chunks + [DoneFrame], None;
  }
}
