/** The session manager (`WhatsAppService`): a table of sessions keyed by id, kept in insertion
    order like a JavaScript `Map`, whose records change in response to the wrapped client's
    events, and which forwards incoming messages to the webhook dispatcher. */
module Sessions {
  import opened Wrappers
  import opened AppConfig
  import opened DeliveryLog
  import opened Lists

  datatype Status = Initializing | Qr | Authenticated | Ready | Disconnected

  datatype ClientInfo = ClientInfo(pushname: string, wid: string, platform: string)

  /** `WhatsAppSession`. */
  datatype Session = Session(id: string, status: Status, qrCode: Option<string>, clientInfo: Option<ClientInfo>)

  /** `client.info` when the client becomes ready; an absent name or platform is "". */
  datatype RawInfo = RawInfo(pushname: string, wid: string, platform: string)

  /** The events the wrapped client raises for one session. */
  datatype ClientEvent =
    | QrCode(qr: string)
    | AuthSucceeded
    | BecameReady(info: RawInfo)
    | LostConnection(reason: string)
    | AuthFailed(message: string)

  /** An incoming message as the wrapped client delivers it. */
  datatype Message = Message(id: string, from: string, body: Option<string>, fromMe: bool, kind: string,
                             timestamp: int, hasMedia: bool, isForwarded: bool, isStatus: bool,
                             isStarred: bool, broadcast: bool, hasQuotedMsg: bool)

  /** Why `createSession` throws. */
  datatype CreateError = AlreadyExists(id: string) | LimitReached(max: nat) | InitFailed(reason: string)

  /** The outcome of `client.initialize()`. */
  datatype InitOutcome = Initialized | InitRejected(reason: string)

  /** The outcome of `client.sendMessage(...)`: the id of the sent message, or what it threw. */
  datatype ClientResult = Returned(messageId: string) | Raised(message: Option<string>)

  /** The outcome of `MessageMedia.fromFilePath`. */
  datatype MediaLoad = Loaded | LoadFailed(message: Option<string>)

  /** `SendMessageResponse`. */
  datatype SendResponse = Sent(messageId: string) | NotSent(error: string)

  /** What was handed to the wrapped client's `sendMessage`. */
  datatype Outbound = TextTo(chatId: string, text: string) | MediaTo(chatId: string, mediaPath: string, caption: Option<string>)

  /** The status each event moves a session to. */
  function TargetStatus(ev: ClientEvent): Status {
    match ev
    case QrCode(_) => Qr
    case AuthSucceeded => Authenticated
    case BecameReady(_) => Ready
    case LostConnection(_) => Disconnected
    case AuthFailed(_) => Disconnected
  }

  /** `info.pushname || "Unknown"`. */
  function OrUnknown(s: string): (r: string)
    ensures r != ""
    ensures s == "" ==> r == "Unknown"
    ensures s != "" ==> r == s
  {
    if s == "" then "Unknown" else s
  }

  /** The handlers installed by `setupClientEvents`, as a transition on the session record. */
  function ApplyEvent(s: Session, ev: ClientEvent): (r: Session)
    ensures r.id == s.id && r.status == TargetStatus(ev)
    ensures ev.QrCode? ==> r.qrCode == Some(ev.qr) && r.clientInfo == s.clientInfo
    ensures ev.AuthSucceeded? || ev.AuthFailed? ==> r.qrCode == s.qrCode && r.clientInfo == s.clientInfo
    ensures ev.BecameReady? ==>
      && r.qrCode == s.qrCode
      && r.clientInfo == Some(ClientInfo(OrUnknown(ev.info.pushname), ev.info.wid, OrUnknown(ev.info.platform)))
    ensures ev.LostConnection? ==> r.qrCode.None? && r.clientInfo.None?
  {
    match ev
    case QrCode(qr) => s.(qrCode := Some(qr), status := Qr)
    case AuthSucceeded => s.(status := Authenticated)
    case BecameReady(info) =>
      s.(status := Ready, clientInfo := Some(ClientInfo(OrUnknown(info.pushname), info.wid, OrUnknown(info.platform))))
    case LostConnection(_) => s.(status := Disconnected, qrCode := None, clientInfo := None)
    case AuthFailed(_) => s.(status := Disconnected)
  }

  /** No event leads back to `initializing`: after any non-empty sequence of events the session
      has left it for good, and it keeps its id throughout. */
  lemma {:induction false} NeverBackToInitializing(s: Session, events: seq<ClientEvent>)
    requires |events| > 0
    ensures ApplyAll(s, events).status != Initializing
    ensures ApplyAll(s, events).id == s.id
    decreases |events|
  {
    if |events| > 1 {
      NeverBackToInitializing(s, events[..|events| - 1]);
    }
  }

  /** The QR code outlives the `qr` status: authentication, readiness and an authentication
      failure leave it in place; only a disconnect clears it. */
  lemma QrCodeKeptAfterQrState(s: Session, qr: string, info: RawInfo, message: string, reason: string)
    ensures var afterQr := ApplyEvent(s, QrCode(qr));
      && ApplyEvent(afterQr, AuthSucceeded).qrCode == Some(qr)
      && ApplyEvent(ApplyEvent(afterQr, AuthSucceeded), BecameReady(info)).qrCode == Some(qr)
      && ApplyEvent(afterQr, AuthFailed(message)).qrCode == Some(qr)
      && ApplyEvent(afterQr, LostConnection(reason)).qrCode == None
  {
  }

  /** The record after a sequence of events, in order. */
  function ApplyAll(s: Session, events: seq<ClientEvent>): Session
    decreases |events|
  {
    if |events| == 0 then s else ApplyEvent(ApplyAll(s, events[..|events| - 1]), events[|events| - 1])
  }

  /** The record `createSession` inserts. */
  function Fresh(id: string): Session {
    Session(id, Initializing, None, None)
  }

  /** `sessionId || uuidv4()`: a missing or empty id is replaced by a generated one. */
  function SessionIdFor(requested: Option<string>, generated: string): (id: string)
    ensures requested.Some? && requested.value != "" ==> id == requested.value
    ensures requested.None? || requested.value == "" ==> id == generated
  {
    if requested.Some? && requested.value != "" then requested.value else generated
  }

  predicate IsDigit(c: char) {
    '0' <= c <= '9'
  }

  /** `s.replace(/\D/g, "")`: the ASCII digits of `s`, in order. */
  function Digits(s: string): (r: string)
    ensures |r| <= |s|
    ensures forall i :: 0 <= i < |r| ==> IsDigit(r[i])
    ensures (forall i :: 0 <= i < |s| ==> IsDigit(s[i])) ==> r == s
    ensures |s| == 1 ==> r == if IsDigit(s[0]) then s else ""
    decreases |s|
  {
    if |s| == 0 then ""
    else (if IsDigit(s[0]) then [s[0]] else []) + Digits(s[1..])
  }

  /** Digits are kept piecewise: those of `a + b` are those of `a` followed by those of `b`.
      With the one-character case, this pins down every digit of the input, in order. */
  lemma {:induction false} DigitsAppend(a: string, b: string)
    ensures Digits(a + b) == Digits(a) + Digits(b)
    decreases |a|
  {
    if |a| > 0 {
      assert (a + b)[0] == a[0] && (a + b)[1..] == a[1..] + b;
      DigitsAppend(a[1..], b);
    } else {
      assert a + b == b;
    }
  }

  /** The recipient normalisation of `sendTextMessage` and `sendMediaMessage`: an address with
      `@` is kept, anything else becomes its digits followed by `@c.us`. */
  function ChatId(to: string): (id: string)
    ensures '@' in id
    ensures '@' in to ==> id == to
    ensures '@' !in to ==>
      |id| >= 5 && id[|id| - 5..] == "@c.us" && id[..|id| - 5] == Digits(to)
      && forall i :: 0 <= i < |id| - 5 ==> IsDigit(id[i])
  {
    if '@' in to then to else Digits(to) + "@c.us"
  }

  /** Normalising twice is normalising once, and a bare number only gains the suffix. */
  lemma ChatIdIdempotent(to: string)
    ensures ChatId(ChatId(to)) == ChatId(to)
    ensures '@' !in to && (forall i :: 0 <= i < |to| ==> IsDigit(to[i])) ==> ChatId(to) == to + "@c.us"
  {
  }

  /** `handleIncomingMessage`: the payload forwarded for a message, if any. There is one exactly
      when the session is tracked and has client info; it is addressed to the session's own id. */
  function IncomingPayload(sessions: map<string, Session>, sessionId: string, msg: Message): (p: Option<Payload>)
    ensures p.Some? <==> sessionId in sessions && sessions[sessionId].clientInfo.Some?
    ensures p.Some? ==>
      && p.value.sessionId == sessionId
      && p.value.to == sessions[sessionId].clientInfo.value.wid
      && p.value.from == msg.from
      && p.value.message == msg.body.GetOr("")
      && p.value.details.Incoming? && p.value.details.id == msg.id && p.value.details.body == msg.body
  {
    if sessionId !in sessions || sessions[sessionId].clientInfo.None? then None
    else
      Some(Payload(sessionId, msg.body.GetOr(""), msg.from, sessions[sessionId].clientInfo.value.wid,
                   Incoming(msg.id, msg.kind, msg.timestamp, msg.body, msg.hasMedia, msg.isForwarded,
                            msg.isStatus, msg.isStarred, msg.broadcast, msg.fromMe, msg.hasQuotedMsg)))
  }

  /** `s` with every occurrence of `x` taken out, the rest in order. */
  function Without(s: seq<string>, x: string): (r: seq<string>)
    ensures forall y :: y in r <==> y in s && y != x
    ensures Distinct(s) ==> Distinct(r)
    ensures x !in s ==> r == s
    decreases |s|
  {
    if |s| == 0 then []
    else if s[0] == x then Without(s[1..], x)
    else
      var rest := Without(s[1..], x);
      DistinctCons(s[0], rest);
      [s[0]] + rest
  }

  /** Taking `x` out keeps the rest in order: removing from a concatenation removes from
      each part. */
  lemma {:induction false} WithoutAppend(a: seq<string>, b: seq<string>, x: string)
    ensures Without(a + b, x) == Without(a, x) + Without(b, x)
    decreases |a|
  {
    if |a| > 0 {
      assert (a + b)[0] == a[0] && (a + b)[1..] == a[1..] + b;
      WithoutAppend(a[1..], b, x);
    } else {
      assert a + b == b;
    }
  }

  /** Appending a fresh id and taking it out again restores the order. */
  lemma WithoutLast(s: seq<string>, x: string)
    requires x !in s
    ensures Without(s + [x], x) == s
    decreases |s|
  {
    if |s| > 0 {
      assert (s + [x])[1..] == s[1..] + [x];
      WithoutLast(s[1..], x);
    }
  }

  /** `Array.from(this.sessions.values())`: the records in insertion order. */
  function Listing(sessions: map<string, Session>, order: seq<string>): (r: seq<Session>)
    requires forall i :: 0 <= i < |order| ==> order[i] in sessions
    ensures |r| == |order|
    ensures forall i :: 0 <= i < |order| ==> r[i] == sessions[order[i]]
    decreases |order|
  {
    if |order| == 0 then [] else [sessions[order[0]]] + Listing(sessions, order[1..])
  }

  /** The table invariant: `order` lists every tracked id exactly once, and every record is
      filed under its own id. */
  ghost predicate WellFormed(sessions: map<string, Session>, order: seq<string>) {
    && Distinct(order)
    && (forall id :: id in order <==> id in sessions)
    && (forall id :: id in sessions ==> sessions[id].id == id)
  }

  lemma InsertKeepsWellFormed(sessions: map<string, Session>, order: seq<string>, id: string)
    requires WellFormed(sessions, order) && id !in sessions
    ensures WellFormed(sessions[id := Fresh(id)], order + [id])
  {
    var o := order + [id];
    forall i, j | 0 <= i < j < |o|
      ensures o[i] != o[j]
    {
      if j == |order| {
        assert o[i] == order[i];
        assert order[i] in sessions;
      }
    }
  }

  /** Inserting a new key grows the table by one. */
  lemma InsertGrows(sessions: map<string, Session>, id: string, s: Session)
    requires id !in sessions
    ensures |sessions[id := s]| == |sessions| + 1
  {
    assert sessions[id := s].Keys == sessions.Keys + {id};
  }

  /** Deleting a key just inserted restores the table. */
  lemma InsertRemove(sessions: map<string, Session>, id: string, s: Session)
    requires id !in sessions
    ensures sessions[id := s] - {id} == sessions
  {
  }

  lemma RemoveKeepsWellFormed(sessions: map<string, Session>, order: seq<string>, id: string)
    requires WellFormed(sessions, order)
    ensures WellFormed(sessions - {id}, Without(order, id))
  {
  }

  class WhatsAppService {
    /** `sessions`: the map's values are the session records; `order` is its insertion order. */
    var sessions: map<string, Session>
    var order: seq<string>
    const config: Config
    const webhookService: WebhookService

    ghost predicate Valid()
      reads this
    {
      WellFormed(sessions, order)
    }

    constructor (config: Config, webhookService: WebhookService)
      ensures Valid() && sessions == map[] && order == []
      ensures this.config == config && this.webhookService == webhookService
    {
      sessions := map[];
      order := [];
      this.config := config;
      this.webhookService := webhookService;
    }

    /** `createSession`: a tracked id and a full table are refused; otherwise the fresh record is
        inserted and stays only if the client initialises. */
    method CreateSession(requested: Option<string>, generated: string, init: InitOutcome)
      returns (r: Result<Session, CreateError>)
      requires Valid()
      modifies this
      ensures Valid()
      ensures var id := SessionIdFor(requested, generated);
        && (id in old(sessions) ==> r == Err(AlreadyExists(id)))
        && (id !in old(sessions) && |old(sessions)| >= config.maxSessions ==> r == Err(LimitReached(config.maxSessions)))
        && (id !in old(sessions) && |old(sessions)| < config.maxSessions && init.InitRejected? ==>
              r == Err(InitFailed(init.reason)))
        && (r.Ok? <==> id !in old(sessions) && |old(sessions)| < config.maxSessions && init.Initialized?)
        && (r.Ok? ==> r.value == Fresh(id) && sessions == old(sessions)[id := Fresh(id)] && order == old(order) + [id])
        && (r.Err? ==> sessions == old(sessions) && order == old(order))
      ensures r.Ok? ==> |sessions| == |old(sessions)| + 1 <= config.maxSessions
    {
      var id := SessionIdFor(requested, generated);
      if id in sessions {
        return Err(AlreadyExists(id));
      }
      if |sessions| >= config.maxSessions {
        return Err(LimitReached(config.maxSessions));
      }
      var session := Fresh(id);
      InsertKeepsWellFormed(sessions, order, id);
      // the record is in the table while the client initialises
      sessions := sessions[id := session];
      order := order + [id];
      match init {
        case Initialized =>
          InsertGrows(old(sessions), id, session);
          r := Ok(session);
        case InitRejected(reason) =>
          sessions := sessions - {id};
          order := Without(order, id);
          InsertRemove(old(sessions), id, session);
          WithoutLast(old(order), id);
          r := Err(InitFailed(reason));
      }
    }

    /** An event of the client that belongs to session `id`: its record is updated; nothing
        happens when the session is no longer tracked. */
    method HandleClientEvent(id: string, ev: ClientEvent)
      requires Valid()
      modifies this
      ensures Valid() && order == old(order)
      ensures id in old(sessions) ==> sessions == old(sessions)[id := ApplyEvent(old(sessions)[id], ev)]
      ensures id !in old(sessions) ==> sessions == old(sessions)
    {
      if id in sessions {
        sessions := sessions[id := ApplyEvent(sessions[id], ev)];
      }
    }

    /** The `message` handler: a message not sent by this account is turned into a payload by
        `handleIncomingMessage` and fanned out to the configured URLs. */
    method HandleMessage(sessionId: string, msg: Message, attempts: seq<Attempt>)
      requires webhookService.Valid() && |attempts| == |config.webhookUrls|
      modifies webhookService
      ensures webhookService.Valid()
      ensures var p := IncomingPayload(sessions, sessionId, msg);
        webhookService.deliveryLogs ==
          if msg.fromMe || p.None? then old(webhookService.deliveryLogs)
          else AppendAll(old(webhookService.deliveryLogs), Entries(p.value, config.webhookUrls, attempts))
    {
      if !msg.fromMe {
        var p := IncomingPayload(sessions, sessionId, msg);
        if p.Some? {
          webhookService.SendWebhook(p.value, config.webhookUrls, attempts);
        }
      }
    }

    /** `getSession`. */
    method GetSession(id: string) returns (r: Option<Session>)
      ensures r.Some? <==> id in sessions
      ensures r.Some? ==> r.value == sessions[id]
    {
      r := if id in sessions then Some(sessions[id]) else None;
    }

    /** `getAllSessions`: every tracked record once, in insertion order. */
    method GetAllSessions() returns (r: seq<Session>)
      requires Valid()
      ensures |r| == |order|
      ensures forall i :: 0 <= i < |r| ==> r[i] == sessions[order[i]]
      ensures forall s :: s in r <==> s in sessions.Values
    {
      r := Listing(sessions, order);
      forall s | s in sessions.Values
        ensures s in r
      {
        var id :| id in sessions && sessions[id] == s;
        var i :| 0 <= i < |order| && order[i] == id;
        assert r[i] == s;
      }
    }

    /** `sendTextMessage`: refused for an unknown or not-ready session; otherwise the text is
        handed to the client under the normalised chat id. */
    method SendTextMessage(sessionId: string, to: string, message: string, client: ClientResult)
      returns (resp: SendResponse, handed: Option<Outbound>)
      ensures sessionId !in sessions ==> resp == NotSent("Session not found") && handed.None?
      ensures sessionId in sessions && sessions[sessionId].status != Ready ==>
        resp == NotSent("Session not ready") && handed.None?
      ensures sessionId in sessions && sessions[sessionId].status == Ready ==>
        && handed == Some(TextTo(ChatId(to), message))
        && resp == (match client
                    case Returned(messageId) => Sent(messageId)
                    case Raised(m) => NotSent(ErrorText(m)))
    {
      if sessionId !in sessions {
        return NotSent("Session not found"), None;
      }
      if sessions[sessionId].status != Ready {
        return NotSent("Session not ready"), None;
      }
      var chatId := ChatId(to);
      handed := Some(TextTo(chatId, message));
      match client {
        case Returned(messageId) => resp := Sent(messageId);
        case Raised(m) => resp := NotSent(ErrorText(m));
      }
    }

    /** `sendMediaMessage`: the same refusals; then the file is loaded and sent with the caption,
        an empty caption being dropped. */
    method SendMediaMessage(sessionId: string, to: string, mediaPath: string, caption: Option<string>,
                            load: MediaLoad, client: ClientResult)
      returns (resp: SendResponse, handed: Option<Outbound>)
      ensures sessionId !in sessions ==> resp == NotSent("Session not found") && handed.None?
      ensures sessionId in sessions && sessions[sessionId].status != Ready ==>
        resp == NotSent("Session not ready") && handed.None?
      ensures sessionId in sessions && sessions[sessionId].status == Ready && load.LoadFailed? ==>
        resp == NotSent(ErrorText(load.message)) && handed.None?
      ensures sessionId in sessions && sessions[sessionId].status == Ready && load.Loaded? ==>
        && handed == Some(MediaTo(ChatId(to), mediaPath, if caption == Some("") then None else caption))
        && resp == (match client
                    case Returned(messageId) => Sent(messageId)
                    case Raised(m) => NotSent(ErrorText(m)))
    {
      if sessionId !in sessions {
        return NotSent("Session not found"), None;
      }
      if sessions[sessionId].status != Ready {
        return NotSent("Session not ready"), None;
      }
      if load.LoadFailed? {
        return NotSent(ErrorText(load.message)), None;
      }
      var chatId := ChatId(to);
      var sentCaption := if caption.Some? && caption.value != "" then caption else None;
      handed := Some(MediaTo(chatId, mediaPath, sentCaption));
      match client {
        case Returned(messageId) => resp := Sent(messageId);
        case Raised(m) => resp := NotSent(ErrorText(m));
      }
    }

    /** `logout`: false for an untracked id; otherwise the client is logged out and destroyed,
        the record removed, and the session directory cleaned up. A failure of the clean-up
        still reports false although the record is gone. */
    method Logout(sessionId: string, logoutOk: bool, destroyOk: bool, cleanupOk: bool) returns (ok: bool)
      requires Valid()
      modifies this
      ensures Valid()
      ensures sessionId !in old(sessions) ==> !ok && sessions == old(sessions) && order == old(order)
      ensures ok ==> sessionId !in sessions
      ensures sessionId in old(sessions) && logoutOk && destroyOk ==>
        ok == cleanupOk && sessions == old(sessions) - {sessionId} && order == Without(old(order), sessionId)
      ensures !(sessionId in old(sessions) && logoutOk && destroyOk) ==>
        !ok && sessions == old(sessions) && order == old(order)
    {
      if sessionId !in sessions {
        return false;
      }
      if !logoutOk || !destroyOk {
        return false;
      }
      RemoveKeepsWellFormed(sessions, order, sessionId);
      sessions := sessions - {sessionId};
      order := Without(order, sessionId);
      ok := cleanupOk;
    }

    /** `destroySession`: like `logout` without logging out or removing the directory. */
    method DestroySession(sessionId: string, destroyOk: bool) returns (ok: bool)
      requires Valid()
      modifies this
      ensures Valid()
      ensures ok <==> sessionId in old(sessions) && destroyOk
      ensures ok ==> sessions == old(sessions) - {sessionId} && order == Without(old(order), sessionId)
      ensures !ok ==> sessions == old(sessions) && order == old(order)
    {
      if sessionId !in sessions {
        return false;
      }
      if !destroyOk {
        return false;
      }
      RemoveKeepsWellFormed(sessions, order, sessionId);
      sessions := sessions - {sessionId};
      order := Without(order, sessionId);
      ok := true;
    }
  }
}
