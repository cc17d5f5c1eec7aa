/** Normalisation of a DingTalk Stream message (stream.py). */
module StreamMessage {
  import opened Wrappers
  import opened Text
  import opened Json

  const MAX_ID := 255
  const MAX_CONVERSATION := 512
  const MAX_TEXT := 32000
  const MAX_PIECES := 128

  datatype Settings = Settings(appKey: string, corpId: string, appId: Option<string>)

  datatype Payload = Payload(event: string, sender: string, conversation: string, kind: string, text: string)

  /** `_field`. */
  function Field(fields: Fields, key: string, maximum: nat): Option<string> {
    var value := Get(fields, key);
    if !value.Str? || Blank(value.s) || |value.s| > maximum then None else Some(value.s)
  }

  predicate IsTextPiece(piece: Json) {
    && piece.Obj?
    && ("type" in piece.fields ==> piece.fields["type"] == Str("text"))
    && Get(piece.fields, "text").Str?
    && "downloadCode" !in piece.fields && "picture" !in piece.fields && "file" !in piece.fields
  }

  predicate AllText(pieces: seq<Json>) {
    forall i | 0 <= i < |pieces| :: IsTextPiece(pieces[i])
  }

  function Concat(pieces: seq<Json>): string
    requires AllText(pieces)
  {
    if pieces == [] then ""
    else Concat(pieces[..|pieces| - 1]) + Get(pieces[|pieces| - 1].fields, "text").s
  }

  lemma {:induction false} ConcatGrows(pieces: seq<Json>, n: nat)
    requires AllText(pieces) && n <= |pieces|
    ensures Concat(pieces[..n]) <= Concat(pieces)
    decreases |pieces|
  {
    if n == |pieces| {
      assert pieces[..n] == pieces;
    } else {
      var front := pieces[..|pieces| - 1];
      ConcatGrows(front, n);
      assert front[..n] == pieces[..n];
    }
  }

  function RichText(pieces: seq<Json>): Option<string> {
    if AllText(pieces) && |Concat(pieces)| <= MAX_TEXT then Some(Concat(pieces)) else None
  }

  /** The loop over the pieces, which stops at the first bad piece or the first one past the limit. */
  method JoinPieces(pieces: seq<Json>) returns (joined: Option<string>)
    ensures joined == RichText(pieces)
  {
    var parts, size := "", 0;
    for i := 0 to |pieces|
      invariant AllText(pieces[..i]) && parts == Concat(pieces[..i]) && size == |parts| <= MAX_TEXT
    {
      var piece := pieces[i];
      assert pieces[..i + 1][i] == piece;
      if !IsTextPiece(piece) {
        return None;
      }
      assert pieces[..i + 1][..i] == pieces[..i];
      size := size + |Get(piece.fields, "text").s|;
      parts := parts + Get(piece.fields, "text").s;
      if size > MAX_TEXT {
        if AllText(pieces) {
          ConcatGrows(pieces, i + 1);
        }
        return None;
      }
    }
    assert pieces[..|pieces|] == pieces;
    return Some(parts);
  }

  function TextOf(fields: Fields): Json {
    if Get(fields, "msgtype") != Str("richText") then Get(fields, "text")
    else
      var content := Get(fields, "content");
      var pieces := if content.Obj? then Get(content.fields, "richText") else Null;
      if !pieces.Arr? || !(1 <= |pieces.items| <= MAX_PIECES) then Null
      else
        var joined := RichText(pieces.items);
        if joined.Some? then Obj(map["content" := Str(joined.value)]) else Null
  }

  predicate Consistent(fields: Fields, key: string, expected: Json) {
    key in fields ==> fields[key] == expected
  }

  /** The message comes from the installation this process was started for. */
  predicate FromInstallation(s: Settings, headerAppId: Json, fields: Fields) {
    var appId := if s.appId.Some? then Str(s.appId.value) else Null;
    && Get(fields, "senderCorpId") == Str(s.corpId)
    && Get(fields, "robotCode") == Str(s.appKey)
    && (s.appId.Some? ==> headerAppId == appId)
    && Consistent(fields, "corpId", Str(s.corpId))
    && Consistent(fields, "appKey", Str(s.appKey))
    && Consistent(fields, "appId", appId)
  }

  /** `normalize_message`; every refusal is the same ImError. */
  function Normalize(s: Settings, headerAppId: Json, data: Json): Option<Payload> {
    if !data.Obj? then None
    else
      var fields := data.fields;
      var msgtype := Get(fields, "msgtype");
      var event := Field(fields, if "msgId" in fields then "msgId" else "messageId", MAX_ID);
      var kind := Get(fields, "conversationType");
      var text := TextOf(fields);
      if msgtype != Str("text") && msgtype != Str("richText") then None
      else if !FromInstallation(s, headerAppId, fields) || event.None? then None
      else if "msgId" in fields && !Consistent(fields, "messageId", Str(event.value)) then None
      else if (kind != Str("1") && kind != Str("2")) || !text.Obj? then None
      else
        var sender := Field(fields, "senderStaffId", MAX_ID);
        var conversation := Field(fields, "conversationId", MAX_CONVERSATION);
        var content := Field(text.fields, "content", MAX_TEXT);
        if sender.None? || conversation.None? || content.None? then None
        else
          Some(Payload(event.value, sender.value, conversation.value,
                       if kind == Str("1") then "direct" else "group", content.value))
  }

  /** Each field of the payload comes from its own field of a message of this installation. */
  lemma NormalizedMeans(s: Settings, headerAppId: Json, data: Json)
    requires Normalize(s, headerAppId, data).Some?
    ensures data.Obj? && FromInstallation(s, headerAppId, data.fields)
    ensures var (p, f) := (Normalize(s, headerAppId, data).value, data.fields);
      && Get(f, "senderStaffId") == Str(p.sender) && Get(f, "conversationId") == Str(p.conversation)
      && Get(f, if "msgId" in f then "msgId" else "messageId") == Str(p.event)
      && ("messageId" in f ==> f["messageId"] == Str(p.event))
      && Get(f, "conversationType") == Str(if p.kind == "direct" then "1" else "2")
      && (p.kind == "direct" || p.kind == "group") && !Blank(p.text) && |p.text| <= MAX_TEXT
      && (Get(f, "msgtype") == Str("text") ==>
            Get(f, "text").Obj? && Get(Get(f, "text").fields, "content") == Str(p.text))
      && (Get(f, "msgtype") != Str("text") ==>
            && Get(f, "msgtype") == Str("richText") && Get(f, "content").Obj?
            && Get(Get(f, "content").fields, "richText").Arr?
            && RichText(Get(Get(f, "content").fields, "richText").items) == Some(p.text))
  {
  }
}

/**
 Durable admission of Stream messages: the handler of stream.py, the client and receipt check of inbox.py
 and `receive` of the control plane's im_inbox.py, with lost, late and repeated requests.
 */
module Ingress {
  import opened Wrappers
  import opened Text
  import opened Json
  import opened StreamMessage

  /** Library code both sides agree on: UUID text, timestamps with a zone, and SHA-256. */
  datatype Codec = Codec(
    uuidText: nat -> string, uuidOf: string -> Option<nat>, isAware: string -> bool, digest: Payload -> string)

  ghost predicate Faithful(c: Codec) {
    forall n: nat :: c.uuidOf(c.uuidText(n)) == Some(n)
  }

  datatype Work = Received | Processed(turn: nat, run: nat, at: string)

  datatype Row = Row(id: nat, installation: nat, event: string, fingerprint: string, createdAt: string, work: Work)

  // --------------------------------------------------------------- receipts

  datatype Receipt = Receipt(id: nat, installation: nat, event: string, work: Option<(nat, nat)>)

  const RECEIPT_KEYS: set<string> :=
    {"id", "installation_id", "vendor_event_id", "status", "turn_id", "run_id", "created_at", "processed_at"}

  function Uuid(c: Codec, j: Json): Option<nat> {
    if j.Str? then c.uuidOf(j.s) else None
  }

  predicate Aware(c: Codec, j: Json) {
    j.Str? && c.isAware(j.s)
  }

  /** `parse_receipt`; None is its ImError. */
  function ParseReceipt(c: Codec, value: Json, installation: nat): Option<Receipt> {
    if !value.Obj? || value.fields.Keys != RECEIPT_KEYS then None
    else
      var f := value.fields;
      var event, status := f["vendor_event_id"], f["status"];
      var id, turn, run := Uuid(c, f["id"]), Uuid(c, f["turn_id"]), Uuid(c, f["run_id"]);
      if !event.Str? || Blank(event.s) || |event.s| > MAX_ID then None
      else if Uuid(c, f["installation_id"]) != Some(installation) || !Aware(c, f["created_at"]) || id.None? then None
      else if status == Str("RECEIVED") then
        if f["turn_id"] != Null || f["run_id"] != Null || f["processed_at"] != Null then None
        else Some(Receipt(id.value, installation, event.s, None))
      else if status == Str("PROCESSED") then
        if turn.None? || run.None? || !Aware(c, f["processed_at"]) then None
        else Some(Receipt(id.value, installation, event.s, Some((turn.value, run.value))))
      else None
  }

  /** The server's content-free view of a row. */
  function View(c: Codec, row: Row): Json {
    Obj(map[
      "id" := Str(c.uuidText(row.id)),
      "installation_id" := Str(c.uuidText(row.installation)),
      "vendor_event_id" := Str(row.event),
      "status" := Str(if row.work.Received? then "RECEIVED" else "PROCESSED"),
      "turn_id" := if row.work.Received? then Null else Str(c.uuidText(row.work.turn)),
      "run_id" := if row.work.Received? then Null else Str(c.uuidText(row.work.run)),
      "created_at" := Str(row.createdAt),
      "processed_at" := if row.work.Received? then Null else Str(row.work.at)])
  }

  predicate Presentable(c: Codec, row: Row) {
    !Blank(row.event) && |row.event| <= MAX_ID && c.isAware(row.createdAt)
    && (row.work.Processed? ==> c.isAware(row.work.at))
  }

  /** The adapter reads back of a row exactly what its receipt holds, and nothing under another installation. */
  lemma ReceiptRoundTrip(c: Codec, row: Row, installation: nat)
    requires Faithful(c) && Presentable(c, row)
    ensures ParseReceipt(c, View(c, row), installation)
         == if installation != row.installation then None
            else Some(Receipt(row.id, row.installation, row.event,
                              if row.work.Received? then None else Some((row.work.turn, row.work.run))))
  {
    var f := View(c, row).fields;
    assert f.Keys == RECEIPT_KEYS;
    assert Uuid(c, f["id"]) == Some(row.id) && Uuid(c, f["installation_id"]) == Some(row.installation);
    if row.work.Processed? {
      assert Uuid(c, f["turn_id"]) == Some(row.work.turn) && Uuid(c, f["run_id"]) == Some(row.work.run);
    }
  }

  // ------------------------------------------------------------- the server

  /** `str_strip_whitespace` of the request model. */
  function Stripped(p: Payload): Payload {
    Payload(Strip(p.event), Strip(p.sender), Strip(p.conversation), Strip(p.kind), Strip(p.text))
  }

  predicate Within(s: string, maximum: nat) {
    1 <= |s| <= maximum
  }

  /** The request model accepts the stripped message. */
  predicate WellFormed(m: Payload) {
    && Within(m.event, MAX_ID) && Within(m.sender, MAX_ID)
    && Within(m.conversation, MAX_CONVERSATION) && Within(m.text, MAX_TEXT)
    && (m.kind == "direct" || m.kind == "group")
  }

  predicate Holds(store: seq<Row>, i: nat, installation: nat, event: string) {
    i < |store| && store[i].installation == installation && store[i].event == event
  }

  function Find(store: seq<Row>, installation: nat, event: string): (r: Option<nat>)
    ensures r.Some? ==> Holds(store, r.value, installation, event)
    ensures r.None? ==> forall i: nat :: !Holds(store, i, installation, event)
  {
    if store == [] then None
    else if Holds(store, |store| - 1, installation, event) then Some(|store| - 1)
    else
      var r := Find(store[..|store| - 1], installation, event);
      assert r.None? ==> forall i: nat | i < |store| - 1 :: store[..|store| - 1][i] == store[i];
      assert r.None? ==> forall i: nat | Holds(store, i, installation, event) ::
        i == |store| - 1 || Holds(store[..|store| - 1], i, installation, event);
      r
  }

  /** An HTTP response: the receipt is the body of a 202. */
  datatype Response = Accepted(body: Json) | Refused

  /** What the transaction meets: the checks before the lookup, the sender's binding, and new values. */
  datatype Context = Context(authorized: bool, bound: bool, id: nat, now: string)

  /** `receive_message`: the store after its commit, and the response sent after that. */
  function Receive(c: Codec, store: seq<Row>, installation: nat, p: Payload, x: Context): (seq<Row>, Response) {
    var m := Stripped(p);
    var found := Find(store, installation, m.event);
    if !WellFormed(m) || !x.authorized then (store, Refused)
    else if found.Some? then
      if store[found.value].fingerprint != c.digest(m) then (store, Refused)
      else (store, Accepted(View(c, store[found.value])))
    else if !x.bound then (store, Refused)
    else
      var row := Row(x.id, installation, m.event, c.digest(m), x.now, Received);
      (store + [row], Accepted(View(c, row)))
  }

  lemma {:induction false} TrimLeftShorter(s: string)
    ensures |TrimLeft(s)| <= |s|
  {
    if s != [] && IsSpace(s[0]) {
      TrimLeftShorter(s[1..]);
    }
  }

  /** Nothing `normalize_message` lets through is refused by the server's request model. */
  lemma NormalizedIsWellFormed(s: Settings, headerAppId: Json, data: Json)
    ensures var p := Normalize(s, headerAppId, data);
      p.Some? ==> WellFormed(Stripped(p.value)) && Get(data.fields, "senderCorpId") == Str(s.corpId)
  {
    var p := Normalize(s, headerAppId, data);
    if p.Some? {
      forall t | t in [p.value.event, p.value.sender, p.value.conversation, p.value.text] ensures |Strip(t)| <= |t| {
        TrimLeftShorter(t);
        TrimRightEnds(TrimLeft(t));
      }
      assert Strip("direct") == "direct" && Strip("group") == "group";
    }
  }

  // ------------------------------------------------------------- the system

  /** Where one delivery of a message by the vendor stands. */
  datatype Delivery = Waiting(payload: Payload) | Acked(payload: Payload) | NotAcked

  /** `requests` are on their way to the server, `responses` on their way back. */
  datatype State = State(
    store: seq<Row>, deliveries: map<nat, Delivery>,
    requests: map<nat, Payload>, responses: map<nat, (Payload, Response)>)

  const START := State([], map[], map[], map[])

  datatype Event =
    | Deliver(h: nat, payload: Option<Payload>)   // None: normalisation refused the message
    | Serve(h: nat, x: Context)                   // the server handles the request, whoever still waits
    | Settle(h: nat, seen: bool)                  // the handler ends, with the response or without it
    | Work(i: nat, turn: nat, run: nat, at: string)

  /** `receive` of inbox.py on the response: the receipt parses and names the event that was sent. */
  predicate Confirms(c: Codec, installation: nat, p: Payload, r: Response) {
    && r.Accepted?
    && var receipt := ParseReceipt(c, r.body, installation);
       receipt.Some? && receipt.value.event == p.event
  }

  function Step(c: Codec, installation: nat, s: State, e: Event): State {
    match e
    case Deliver(h, payload) =>
      if h in s.deliveries then s
      else if payload.None? then s.(deliveries := s.deliveries[h := NotAcked])
      else s.(deliveries := s.deliveries[h := Waiting(payload.value)], requests := s.requests[h := payload.value])
    case Serve(h, x) =>
      if h !in s.requests || !c.isAware(x.now) then s
      else
        var (store, response) := Receive(c, s.store, installation, s.requests[h], x);
        s.(store := store, requests := s.requests - {h}, responses := s.responses[h := (s.requests[h], response)])
    case Settle(h, seen) =>
      if h !in s.deliveries || !s.deliveries[h].Waiting? then s
      else if seen && h in s.responses && Confirms(c, installation, s.deliveries[h].payload, s.responses[h].1)
      then s.(deliveries := s.deliveries[h := Acked(s.deliveries[h].payload)])
      else s.(deliveries := s.deliveries[h := NotAcked])
    case Work(i, turn, run, at) =>
      if i >= |s.store| || s.store[i].work.Processed? || !c.isAware(at) then s
      else s.(store := s.store[i := s.store[i].(work := Processed(turn, run, at))])
  }

  function Play(c: Codec, installation: nat, s: State, events: seq<Event>): State
    decreases |events|
  {
    if events == [] then s else Play(c, installation, Step(c, installation, s, events[0]), events[1..])
  }

  // -------------------------------------------------------------- invariant

  /** The message is durably recorded, under its own content. */
  ghost predicate Recorded(c: Codec, store: seq<Row>, installation: nat, p: Payload) {
    exists i: nat :: Holds(store, i, installation, Strip(p.event)) && store[i].fingerprint == c.digest(Stripped(p))
  }

  /** At most one row per installation and event. */
  predicate Unique(store: seq<Row>) {
    forall i, j | 0 <= i < j < |store| ::
      store[i].installation != store[j].installation || store[i].event != store[j].event
  }

  predicate WellKept(c: Codec, store: seq<Row>) {
    forall i | 0 <= i < |store| :: Presentable(c, store[i]) && Strip(store[i].event) == store[i].event
  }

  /** The later table has every row of the earlier one, in place; only the processing mark may be new. */
  predicate Extends(before: seq<Row>, after: seq<Row>) {
    |before| <= |after| &&
    forall i | 0 <= i < |before| ::
      after[i].(work := before[i].work) == before[i] && (before[i].work.Processed? ==> after[i] == before[i])
  }

  /** An accepting response is the view of the row that records its request. */
  ghost predicate Truthful(c: Codec, store: seq<Row>, installation: nat, p: Payload, r: Response) {
    r.Accepted? ==>
      Recorded(c, store, installation, p)
      && exists row: Row :: Presentable(c, row) && row.event == Strip(p.event) && r.body == View(c, row)
  }

  ghost predicate Inv(c: Codec, installation: nat, s: State) {
    && Unique(s.store) && WellKept(c, s.store)
    && (forall h | h in s.requests :: h in s.deliveries)
    && (forall h | h in s.responses ::
         h in s.deliveries && Truthful(c, s.store, installation, s.responses[h].0, s.responses[h].1))
    && (forall h | h in s.deliveries && s.deliveries[h].Waiting? ::
         && (h in s.requests ==> s.requests[h] == s.deliveries[h].payload)
         && (h in s.responses ==> s.responses[h].0 == s.deliveries[h].payload))
    && (forall h | h in s.deliveries && s.deliveries[h].Acked? ::
         && Recorded(c, s.store, installation, s.deliveries[h].payload)
         && Strip(s.deliveries[h].payload.event) == s.deliveries[h].payload.event)
  }

  lemma RecordedLater(c: Codec, before: seq<Row>, after: seq<Row>, installation: nat, p: Payload)
    requires Extends(before, after) && Recorded(c, before, installation, p)
    ensures Recorded(c, after, installation, p)
  {
    var i: nat :| Holds(before, i, installation, Strip(p.event)) && before[i].fingerprint == c.digest(Stripped(p));
    assert Holds(after, i, installation, Strip(p.event));
  }

  /** The store only grows, stays unique, and an acceptance says what was stored before it was sent. */
  lemma ReceiveIsDurable(c: Codec, store: seq<Row>, installation: nat, p: Payload, x: Context)
    requires Faithful(c) && Unique(store) && WellKept(c, store) && c.isAware(x.now)
    ensures var (after, response) := Receive(c, store, installation, p, x);
      Extends(store, after) && Unique(after) && WellKept(c, after)
      && Truthful(c, after, installation, p, response)
  {
    var (after, response) := Receive(c, store, installation, p, x);
    var m := Stripped(p);
    var found := Find(store, installation, m.event);
    StripIdempotent(p.event);
    if response.Accepted? {
      var i := if found.Some? then found.value else |store|;
      assert Holds(after, i, installation, m.event);
      assert Presentable(c, after[i]);
      if found.None? {
        forall k | 0 <= k < |store| ensures store[k].installation != installation || store[k].event != m.event {
          assert !Holds(store, k, installation, m.event);
        }
      }
    }
  }

  /** What a store that extends the old one leaves true. */
  lemma ExtendKeepsInv(c: Codec, installation: nat, s: State, store: seq<Row>)
    requires Inv(c, installation, s) && Extends(s.store, store) && Unique(store) && WellKept(c, store)
    ensures Inv(c, installation, s.(store := store))
  {
    forall p | Recorded(c, s.store, installation, p) ensures Recorded(c, store, installation, p) {
      RecordedLater(c, s.store, store, installation, p);
    }
  }

  lemma ServeKeepsInv(c: Codec, installation: nat, s: State, h: nat, x: Context)
    requires Faithful(c) && Inv(c, installation, s) && h in s.requests && c.isAware(x.now)
    ensures Inv(c, installation, Step(c, installation, s, Serve(h, x)))
    ensures Extends(s.store, Step(c, installation, s, Serve(h, x)).store)
  {
    var t := Step(c, installation, s, Serve(h, x));
    ReceiveIsDurable(c, s.store, installation, s.requests[h], x);
    ExtendKeepsInv(c, installation, s, t.store);
  }

  /** The response to a request confirms it exactly when it accepts the very id that was sent. */
  lemma ConfirmsView(c: Codec, installation: nat, p: Payload, row: Row)
    requires Faithful(c) && Presentable(c, row)
    ensures Confirms(c, installation, p, Accepted(View(c, row)))
      <==> row.installation == installation && row.event == p.event
  {
    ReceiptRoundTrip(c, row, installation);
  }

  lemma EndKeepsInv(c: Codec, installation: nat, s: State, h: nat, d: Delivery)
    requires Inv(c, installation, s) && h in s.deliveries && !d.Waiting?
    requires d.Acked? ==> Recorded(c, s.store, installation, d.payload) && Strip(d.payload.event) == d.payload.event
    ensures Inv(c, installation, s.(deliveries := s.deliveries[h := d]))
  {
  }

  lemma SettleKeepsInv(c: Codec, installation: nat, s: State, h: nat, seen: bool)
    requires Faithful(c) && Inv(c, installation, s) && h in s.deliveries && s.deliveries[h].Waiting?
    ensures Inv(c, installation, Step(c, installation, s, Settle(h, seen)))
  {
    var p := s.deliveries[h].payload;
    EndKeepsInv(c, installation, s, h, NotAcked);
    if seen && h in s.responses && Confirms(c, installation, p, s.responses[h].1) {
      var row :| Presentable(c, row) && row.event == Strip(p.event) && s.responses[h].1.body == View(c, row);
      assert s.responses[h].1 == Accepted(View(c, row));
      ConfirmsView(c, installation, p, row);
      EndKeepsInv(c, installation, s, h, Acked(p));
    }
  }

  lemma DeliverKeepsInv(c: Codec, installation: nat, s: State, h: nat, payload: Option<Payload>)
    requires Inv(c, installation, s) && h !in s.deliveries
    ensures Inv(c, installation, Step(c, installation, s, Deliver(h, payload)))
  {
  }

  lemma WorkKeepsInv(c: Codec, installation: nat, s: State, i: nat, turn: nat, run: nat, at: string)
    requires Inv(c, installation, s) && i < |s.store| && !s.store[i].work.Processed? && c.isAware(at)
    ensures var t := Step(c, installation, s, Work(i, turn, run, at));
      Inv(c, installation, t) && Extends(s.store, t.store)
  {
    ExtendKeepsInv(c, installation, s, s.store[i := s.store[i].(work := Processed(turn, run, at))]);
  }

  lemma StepKeepsInv(c: Codec, installation: nat, s: State, e: Event)
    requires Faithful(c) && Inv(c, installation, s)
    ensures Inv(c, installation, Step(c, installation, s, e))
    ensures Extends(s.store, Step(c, installation, s, e).store)
  {
    match e
    case Deliver(h, payload) =>
      if h !in s.deliveries {
        DeliverKeepsInv(c, installation, s, h, payload);
      }
    case Serve(h, x) =>
      if h in s.requests && c.isAware(x.now) {
        ServeKeepsInv(c, installation, s, h, x);
      }
    case Settle(h, seen) =>
      if h in s.deliveries && s.deliveries[h].Waiting? {
        SettleKeepsInv(c, installation, s, h, seen);
      }
    case Work(i, turn, run, at) =>
      if i < |s.store| && !s.store[i].work.Processed? && c.isAware(at) {
        WorkKeepsInv(c, installation, s, i, turn, run, at);
      }
  }

  lemma ExtendsIsTransitive(a: seq<Row>, b: seq<Row>, d: seq<Row>)
    requires Extends(a, b) && Extends(b, d)
    ensures Extends(a, d)
  {
    forall i | 0 <= i < |a| ensures d[i].(work := a[i].work) == a[i] {
      assert b[i].(work := a[i].work) == a[i] && d[i].(work := b[i].work) == b[i];
    }
  }

  lemma {:induction false} RunKeepsInv(c: Codec, installation: nat, s: State, events: seq<Event>)
    requires Faithful(c) && Inv(c, installation, s)
    ensures Inv(c, installation, Play(c, installation, s, events))
    ensures Extends(s.store, Play(c, installation, s, events).store)
    decreases |events|
  {
    if events != [] {
      var t := Step(c, installation, s, events[0]);
      StepKeepsInv(c, installation, s, events[0]);
      RunKeepsInv(c, installation, t, events[1..]);
      ExtendsIsTransitive(s.store, t.store, Play(c, installation, t, events[1..]).store);
    }
  }

  // --------------------------------------------------------------- theorems

  /**
   Whatever is redelivered, lost, late or repeated: an OK acknowledgement means the message is in the
   Inbox of this installation, in one row, under its own content, and stays there in every later state.
   */
  lemma AckMeansDurable(c: Codec, installation: nat, events: seq<Event>, later: seq<Event>, h: nat)
    requires Faithful(c)
    requires var s := Play(c, installation, START, events); h in s.deliveries && s.deliveries[h].Acked?
    ensures var s := Play(c, installation, START, events);
      var t := Play(c, installation, s, later);
      Strip(s.deliveries[h].payload.event) == s.deliveries[h].payload.event
      && Recorded(c, s.store, installation, s.deliveries[h].payload)
      && Recorded(c, t.store, installation, s.deliveries[h].payload)
      && Unique(t.store) && Extends(s.store, t.store)
  {
    RunKeepsInv(c, installation, START, events);
    var s := Play(c, installation, START, events);
    RunKeepsInv(c, installation, s, later);
    RecordedLater(c, s.store, Play(c, installation, s, later).store, installation, s.deliveries[h].payload);
  }

  /** A handler whose request is still under way, and the response it is about to see. */
  predicate Pending(s: State, h: nat) {
    h in s.deliveries && s.deliveries[h].Waiting? && h in s.requests
  }

  /** The row already kept for the message's event, if any, has the message's content. */
  predicate NoConflict(c: Codec, store: seq<Row>, installation: nat, p: Payload) {
    var found := Find(store, installation, Strip(p.event));
    found.Some? ==> store[found.value].fingerprint == c.digest(Stripped(p))
  }

  predicate Admitted(c: Codec, store: seq<Row>, installation: nat, p: Payload, x: Context) {
    && x.authorized && WellFormed(Stripped(p)) && NoConflict(c, store, installation, p)
    && (Find(store, installation, Strip(p.event)).None? ==> x.bound)
  }

  lemma AcceptExactly(c: Codec, installation: nat, store: seq<Row>, p: Payload, x: Context)
    requires WellKept(c, store) && c.isAware(x.now)
    ensures var r := Receive(c, store, installation, p, x).1;
      && (r.Accepted? <==> Admitted(c, store, installation, p, x))
      && (r.Accepted? ==> exists row: Row ::
            Presentable(c, row) && row.installation == installation && row.event == Strip(p.event)
            && r.body == View(c, row))
  {
    var (after, r) := Receive(c, store, installation, p, x);
    if r.Accepted? {
      var found := Find(store, installation, Strip(p.event));
      var row := if found.Some? then store[found.value] else after[|store|];
      StripIdempotent(p.event);
      assert Presentable(c, row) && r.body == View(c, row);
    }
  }

  /**
   A served request is stored exactly when it is admitted; seeing its response, the handler acknowledges
   exactly when, besides, the event id carries no surrounding whitespace.
   */
  lemma AckExactly(c: Codec, installation: nat, s: State, h: nat, x: Context)
    requires Faithful(c) && Inv(c, installation, s) && Pending(s, h) && c.isAware(x.now)
    ensures var p := s.deliveries[h].payload;
      var t := Step(c, installation, Step(c, installation, s, Serve(h, x)), Settle(h, true));
      && (if Admitted(c, s.store, installation, p, x)
          then Recorded(c, t.store, installation, p) else t.store == s.store)
      && (t.deliveries[h].Acked? <==> Admitted(c, s.store, installation, p, x) && Strip(p.event) == p.event)
  {
    var p := s.deliveries[h].payload;
    var served := Step(c, installation, s, Serve(h, x));
    var (after, r) := Receive(c, s.store, installation, p, x);
    assert served.responses[h] == (p, r) && served.deliveries == s.deliveries && served.store == after;
    ReceiveIsDurable(c, s.store, installation, p, x);
    AcceptExactly(c, installation, s.store, p, x);
    if r.Accepted? {
      var row :| Presentable(c, row) && row.installation == installation && row.event == Strip(p.event)
                 && r.body == View(c, row);
      assert r == Accepted(View(c, row));
      ConfirmsView(c, installation, p, row);
    }
  }

  /** The reverse of `AckMeansDurable` fails: with the response lost, a stored message stays unacknowledged. */
  lemma StoredWithoutAck(c: Codec, installation: nat, p: Payload, now: string)
    requires Faithful(c) && WellFormed(Stripped(p)) && c.isAware(now)
    ensures var s := Play(c, installation, START,
                          [Deliver(0, Some(p)), Serve(0, Context(true, true, 0, now)), Settle(0, false)]);
      Recorded(c, s.store, installation, p) && 0 in s.deliveries && s.deliveries[0] == NotAcked
  {
    var x := Context(true, true, 0, now);
    var a := Step(c, installation, START, Deliver(0, Some(p)));
    var b := Step(c, installation, a, Serve(0, x));
    assert Play(c, installation, a, [Serve(0, x), Settle(0, false)]) == Play(c, installation, b, [Settle(0, false)]);
    assert Play(c, installation, b, [Settle(0, false)]) == Step(c, installation, b, Settle(0, false));
    assert Holds(b.store, 0, installation, Strip(p.event));
  }

  /** The events of a message that is delivered, served by a server that admits it, and seen answered. */
  function Answered(p: Payload, now: string): seq<Event> {
    [Deliver(0, Some(p)), Serve(0, Context(true, true, 0, now)), Settle(0, true)]
  }

  /** Fully answered, a message is stored, and acknowledged exactly when its id is free of surrounding whitespace. */
  lemma AnsweredExactly(c: Codec, installation: nat, p: Payload, now: string)
    requires Faithful(c) && WellFormed(Stripped(p)) && c.isAware(now)
    ensures var s := Play(c, installation, START, Answered(p, now));
      && Recorded(c, s.store, installation, p) && 0 in s.deliveries
      && (s.deliveries[0].Acked? <==> Strip(p.event) == p.event)
  {
    var x := Context(true, true, 0, now);
    var a := Step(c, installation, START, Deliver(0, Some(p)));
    var b := Step(c, installation, a, Serve(0, x));
    StepKeepsInv(c, installation, START, Deliver(0, Some(p)));
    assert a.store == [];
    AckExactly(c, installation, a, 0, x);
    assert Play(c, installation, b, [Settle(0, true)]) == Step(c, installation, b, Settle(0, true));
    assert Play(c, installation, a, [Serve(0, x), Settle(0, true)]) == Play(c, installation, b, [Settle(0, true)]);
  }

  const SETTINGS := Settings("app", "corp", None)

  /** A Stream message of that installation whose business key starts with a space. */
  const PADDED := Obj(map[
    "msgtype" := Str("text"), "senderCorpId" := Str("corp"), "robotCode" := Str("app"), "msgId" := Str(" m"),
    "conversationType" := Str("1"), "text" := Obj(map["content" := Str("t")]),
    "senderStaffId" := Str("s"), "conversationId" := Str("c")])

  lemma StripOfLetter(s: string)
    requires |s| == 1 && !IsSpace(s[0])
    ensures Strip(s) == s && Strip(" " + s) == s && !Blank(s) && !Blank(" " + s)
  {
    assert TrimLeft(s) == s && TrimRight(s) == s;
    assert (" " + s)[1..] == s;
  }

  lemma PaddedFields()
    ensures var f := PADDED.fields;
      && Get(f, "msgtype") == Str("text") && Get(f, "senderCorpId") == Str("corp") && Get(f, "robotCode") == Str("app")
      && "msgId" in f && f["msgId"] == Str(" m") && Get(f, "conversationType") == Str("1")
      && Get(f, "text") == Obj(map["content" := Str("t")])
      && Get(f, "senderStaffId") == Str("s") && Get(f, "conversationId") == Str("c")
      && "messageId" !in f && "corpId" !in f && "appKey" !in f && "appId" !in f
  {
  }

  lemma FieldOf(f: Fields, key: string, text: string, maximum: nat)
    requires Get(f, key) == Str(text) && !Blank(text) && |text| <= maximum
    ensures Field(f, key, maximum) == Some(text)
  {
  }

  /** It passes normalisation with its key as it came. */
  lemma PaddedIsNormalised()
    ensures Normalize(SETTINGS, Null, PADDED) == Some(Payload(" m", "s", "c", "direct", "t"))
  {
    var f := PADDED.fields;
    PaddedFields();
    PaddedLetters();
    FieldOf(f, "msgId", " m", MAX_ID);
    FieldOf(f, "senderStaffId", "s", MAX_ID);
    FieldOf(f, "conversationId", "c", MAX_CONVERSATION);
    FieldOf(map["content" := Str("t")], "content", "t", MAX_TEXT);
  }

  lemma PaddedLetters()
    ensures !Blank(" m") && !Blank("s") && !Blank("c") && !Blank("t") && Strip(" m") == "m"
  {
    StripOfLetter("m");
    StripOfLetter("s");
    StripOfLetter("c");
    StripOfLetter("t");
    assert " " + "m" == " m";
  }

  /** The concrete failure: that message is stored, its response is seen, and it is not acknowledged. */
  lemma PaddedIdIsNeverAcked(c: Codec, installation: nat, now: string)
    requires Faithful(c) && c.isAware(now)
    ensures var p := Payload(" m", "s", "c", "direct", "t");
      var s := Play(c, installation, START, Answered(p, now));
      Normalize(SETTINGS, Null, PADDED) == Some(p)
      && Recorded(c, s.store, installation, p) && 0 in s.deliveries && s.deliveries[0] == NotAcked
  {
    var p := Payload(" m", "s", "c", "direct", "t");
    PaddedIsNormalised();
    NormalizedIsWellFormed(SETTINGS, Null, PADDED);
    PaddedLetters();
    AnsweredExactly(c, installation, p, now);
    AnsweredIsSettled(c, installation, p, now);
  }

  lemma AnsweredIsSettled(c: Codec, installation: nat, p: Payload, now: string)
    requires c.isAware(now)
    ensures var s := Play(c, installation, START, Answered(p, now)); 0 in s.deliveries && !s.deliveries[0].Waiting?
  {
    var x := Context(true, true, 0, now);
    var a := Step(c, installation, START, Deliver(0, Some(p)));
    var b := Step(c, installation, a, Serve(0, x));
    assert Play(c, installation, b, [Settle(0, true)]) == Step(c, installation, b, Settle(0, true));
    assert Play(c, installation, a, [Serve(0, x), Settle(0, true)]) == Play(c, installation, b, [Settle(0, true)]);
  }
}
