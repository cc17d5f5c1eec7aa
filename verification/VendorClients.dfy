/**
 The one message write each vendor client makes, and how its result is classified
 (feishu.py, dingtalk.py and wecom.py of the IM adapter).
 */
module VendorClients {
  import opened Wrappers
  import opened Text
  import opened Json

  datatype Vendor = Feishu | DingTalk | WeCom

  const MAX_RESPONSE_BYTES := 1_048_576
  const MAX_RECEIPT_LENGTH := 500

  /** `channel` is the name after alias normalisation. */
  datatype Message = Message(
    channel: string,
    delivery: string,
    conversationId: string,
    text: string,
    replyToSenderId: Option<string>,
    deliveryId: Option<string>,
    runId: string)

  /** How the token fetch before the write went. */
  datatype Auth =
    | Token(token: string)
    | AuthRefused   // any ImError
    | AuthCrashed   // any other exception

  datatype Body = NotJson | NotObject | Object(fields: Fields)

  /** What the client saw of the single POST. */
  datatype Reply =
    | TransportError
    | OtherFailure
    | Response(status: nat, size: nat, retryAfter: Option<real>, body: Body)

  /** How `channel.reply` ends: a value, or the exception class that leaves it. */
  datatype Outcome =
    | Receipt(id: string)
    | NoReceipt
    | OutcomeUnknown
    | RateLimited(retryAfter: real)
    | Rejected
    | PreSend
    | PlainError   // an ImError of none of the four delivery classes
    | Crashed      // an exception that is no ImError

  /** One accepted-or-not message request on the wire. */
  datatype Post = Post(endpoint: string, target: string, text: string, key: Option<string>, token: string)

  function ChannelName(v: Vendor): string {
    match v case Feishu => "feishu" case DingTalk => "dingtalk" case WeCom => "wecom"
  }

  function DeliveryName(v: Vendor): string {
    match v case Feishu => "feishu_http" case DingTalk => "dingtalk_http" case WeCom => "wecom_http"
  }

  /** `message.delivery_id or message.run_id`. */
  function IdempotencyKey(m: Message): string {
    if m.deliveryId.Some? && m.deliveryId.value != "" then m.deliveryId.value else m.runId
  }

  /** The checks made before authentication; each raises a plain ImError. */
  predicate Addressed(v: Vendor, m: Message) {
    && m.channel == ChannelName(v)
    && m.delivery == DeliveryName(v)
    && !Blank(m.conversationId)
    && !Blank(m.text)
    && (v.Feishu? || !Blank(IdempotencyKey(m)))
  }

  predicate Posts(v: Vendor, m: Message, auth: Auth) {
    Addressed(v, m) && auth.Token?
  }

  function MessagePost(v: Vendor, m: Message, token: string): Post {
    var target := Strip(m.conversationId);
    match v
    case Feishu => Post("/open-apis/im/v1/messages", target, Strip(m.text), Some(IdempotencyKey(m)), token)
    case DingTalk => Post("/chat/send", target, Strip(m.text), None, token)
    case WeCom =>
      var sender := if m.replyToSenderId.Some? then Strip(m.replyToSenderId.value) else "";
      var endpoint := if sender != "" && target != sender then "/cgi-bin/appchat/send" else "/cgi-bin/message/send";
      Post(endpoint, target, Strip(m.text), None, token)
  }

  function RetryDelay(retryAfter: Option<real>): real {
    match retryAfter
    case None => 0.25
    case Some(r) => if r < 0.0 then 0.0 else if r > 5.0 then 5.0 else r
  }

  predicate Success2xx(status: nat) {
    200 <= status < 300
  }

  /** `_send_json_once`: the payload of a usable 2xx answer, or the exception it raises. */
  function SendJsonOnce(v: Vendor, reply: Reply): Result<Fields, Outcome> {
    match reply
    case TransportError => Err(OutcomeUnknown)
    case OtherFailure => Err(Crashed)
    case Response(status, size, retryAfter, body) =>
      if status == 429 then Err(RateLimited(RetryDelay(retryAfter)))
      else if status >= 500 then Err(OutcomeUnknown)
      else if v.Feishu? then
        if status == 401 || status == 403 then Err(Rejected)
        else if size > MAX_RESPONSE_BYTES then Err(OutcomeUnknown)
        else if !Success2xx(status) then Err(Rejected)
        else if body.Object? then Ok(body.fields) else Err(OutcomeUnknown)
      else
        if !Success2xx(status) then Err(Rejected)
        else if size > MAX_RESPONSE_BYTES then Err(OutcomeUnknown)
        else if body.Object? then Ok(body.fields) else Err(OutcomeUnknown)
  }

  /** `_require_success`. */
  predicate VendorSucceeded(v: Vendor, payload: Fields) {
    if v.Feishu? then
      EqualsInt(Get(payload, "code"), 0)
    else
      var code := Get(payload, "errcode");
      || EqualsInt(code, 0)
      || code == Str("0")
      || (code == Null && Truthy(Get(payload, "access_token")))
  }

  /** The vendor's own message id, or None when the answer carries no usable one. */
  function VendorReceipt(v: Vendor, m: Message, payload: Fields): Option<string> {
    match v
    case Feishu =>
      var data := Get(payload, "data");
      var id := if data.Obj? then PrintOrEmpty(Get(data.fields, "message_id")) else "";
      if id == "" then None else Some(id)
    case DingTalk =>
      var raw := Or(Get(payload, "messageId"), Get(payload, "message_id"));
      if !raw.Str? || Blank(raw.s) then None
      else
        var id := Strip(raw.s);
        if |id| > MAX_RECEIPT_LENGTH || id == Strip(IdempotencyKey(m)) then None else Some(id)
    case WeCom =>
      var id := Strip(PrintOrEmpty(Or(Get(payload, "msgid"), Get(payload, "msg_id"))));
      if id == "" then None else Some(id)
  }

  /** Everything `send_text` does once the POST has been issued. */
  function AfterPost(v: Vendor, m: Message, reply: Reply): Outcome {
    match SendJsonOnce(v, reply)
    case Err(o) => o
    case Ok(payload) =>
      if !VendorSucceeded(v, payload) then Rejected
      else match VendorReceipt(v, m, payload)
        case None => OutcomeUnknown
        case Some(id) => Receipt(id)
  }

  /** How the call ends when it never reaches the POST. */
  function BeforePost(v: Vendor, m: Message, auth: Auth): Outcome
    requires !Posts(v, m, auth)
  {
    if !Addressed(v, m) then PlainError
    else if auth.AuthRefused? then PreSend
    else Crashed
  }

  function ReplyOutcome(v: Vendor, m: Message, auth: Auth, reply: Reply): Outcome {
    if Posts(v, m, auth) then AfterPost(v, m, reply) else BeforePost(v, m, auth)
  }

  /** A live channel; `posts` is every message request it has put on the wire. */
  class HttpChannel {
    const vendor: Vendor
    var posts: seq<Post>

    constructor (vendor: Vendor)
      ensures this.vendor == vendor && posts == []
    {
      this.vendor := vendor;
      posts := [];
    }

    /** `reply` and the `send_text` under it, exception by exception. */
    method Send(m: Message, auth: Auth, reply: Reply) returns (outcome: Outcome)
      modifies this`posts
      ensures posts == old(posts) + if Posts(vendor, m, auth) then [MessagePost(vendor, m, auth.token)] else []
      ensures outcome == ReplyOutcome(vendor, m, auth, reply)
    {
      if m.channel != ChannelName(vendor) || m.delivery != DeliveryName(vendor) {
        return PlainError;
      }
      var receiveId := Strip(m.conversationId);
      if receiveId == "" {
        return PlainError;
      }
      var content := Strip(m.text);
      if content == "" {
        return PlainError;
      }
      if !vendor.Feishu? && Strip(IdempotencyKey(m)) == "" {
        return PlainError;
      }
      match auth {
        case AuthRefused => return PreSend;
        case AuthCrashed => return Crashed;
        case Token(token) =>
          posts := posts + [MessagePost(vendor, m, token)];
      }
      var payload := SendJsonOnce(vendor, reply);
      if payload.Err? {
        return payload.error;
      }
      if !VendorSucceeded(vendor, payload.value) {
        return Rejected;
      }
      var id := VendorReceipt(vendor, m, payload.value);
      return if id.Some? then Receipt(id.value) else OutcomeUnknown;
    }
  }

  /** The two actors that call `reply` under a fenced claim. */
  datatype Actor = Worker | Bridge

  /** The outcomes each actor reports with `retryable=True`; only the bridge retries a plain ImError. */
  predicate ReportsRetryable(actor: Actor, o: Outcome) {
    o.RateLimited? || o.PreSend? || (actor.Bridge? && o.PlainError?)
  }

  /**
   Retry soundness, both ways and for all three vendors: a call is reported as retryable exactly
   when it either ended before its POST (other than by a crash, or by a plain error that the
   worker refuses to classify) or its POST was answered with HTTP 429.
   */
  lemma RetryableExactly(actor: Actor, v: Vendor, m: Message, auth: Auth, reply: Reply)
    ensures ReportsRetryable(actor, ReplyOutcome(v, m, auth, reply)) <==>
      if Posts(v, m, auth) then reply.Response? && reply.status == 429
      else if Addressed(v, m) then auth.AuthRefused?
      else actor.Bridge?
  {
    if Posts(v, m, auth) {
      var sent := SendJsonOnce(v, reply);
      assert sent.Err? ==> sent.error in {OutcomeUnknown, Crashed, Rejected} || sent.error.RateLimited?;
    }
  }

  /** The vendor answered conclusively that it did not take the message. */
  predicate Denied(v: Vendor, reply: Reply) {
    && reply.Response? && reply.status != 429 && reply.status < 500
    && if Success2xx(reply.status)
       then reply.size <= MAX_RESPONSE_BYTES && reply.body.Object? && !VendorSucceeded(v, reply.body.fields)
       else !v.Feishu? || reply.status == 401 || reply.status == 403 || reply.size <= MAX_RESPONSE_BYTES
  }

  /**
   A delivery is given up for good exactly when the vendor denied it, and is held as unknown exactly when
   the answer was lost, a server error, unreadable, or a success without a usable receipt.
   */
  lemma DeniedExactly(v: Vendor, m: Message, reply: Reply)
    ensures AfterPost(v, m, reply).Rejected? <==> Denied(v, reply)
    ensures AfterPost(v, m, reply).OutcomeUnknown? <==>
      !Denied(v, reply) && !reply.OtherFailure? && !AfterPost(v, m, reply).Receipt?
      && !(reply.Response? && reply.status == 429)
  {
    var sent := SendJsonOnce(v, reply);
    assert sent.Err? ==> sent.error in {OutcomeUnknown, Crashed, Rejected} || sent.error.RateLimited?;
  }

  /** No plain ImError and no pre-send error can leave the call once the POST is on the wire. */
  lemma NothingPlainAfterPost(v: Vendor, m: Message, reply: Reply)
    ensures !AfterPost(v, m, reply).PlainError? && !AfterPost(v, m, reply).PreSend?
  {
    RetryableExactly(Bridge, v, m.(channel := ChannelName(v), delivery := DeliveryName(v)), Token("t"), reply);
  }

  /**
   The client claims delivery only on positive proof: a receipt needs a 2xx answer of bounded
   size whose business code is zero, and it is never one of DingTalk's echoes of our own key.
   */
  lemma ReceiptNeedsProof(v: Vendor, m: Message, reply: Reply)
    requires AfterPost(v, m, reply).Receipt?
    ensures reply.Response? && Success2xx(reply.status) && reply.size <= MAX_RESPONSE_BYTES
    ensures reply.body.Object? && VendorSucceeded(v, reply.body.fields)
    ensures AfterPost(v, m, reply).id != ""
    ensures v.DingTalk? ==> AfterPost(v, m, reply).id != Strip(IdempotencyKey(m))
  {
    var payload := SendJsonOnce(v, reply);
    assert payload.Ok?;
  }
}
