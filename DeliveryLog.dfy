/** The webhook dispatcher (`WebhookService`): fan-out of one payload to every configured URL,
    and a bounded in-memory log of delivery outcomes, newest entries kept. */
module DeliveryLog {
  import opened Wrappers

  /** `maxLogEntries`: the log never holds more outcomes than this. */
  const MaxLogEntries: nat := 100

  /** `messageDetails` of a payload: the fields copied from an incoming message, or the fixed
      sample sent by a connectivity test. */
  datatype Details =
    | Incoming(id: string, kind: string, timestamp: int, body: Option<string>, hasMedia: bool,
               isForwarded: bool, isStatus: bool, isStarred: bool, broadcast: bool,
               fromMe: bool, hasQuotedMsg: bool)
    | Sample(id: string, kind: string, timestamp: int, text: string)

  datatype Payload = Payload(sessionId: string, message: string, from: string, to: string, details: Details)

  /** The result of one HTTP POST as the environment reports it: a 2xx answer, or a rejection
      carrying the message of the thrown `Error` (`None` for anything else thrown). Both carry the
      elapsed milliseconds. */
  datatype PostOutcome =
    | Responded(elapsed: int)
    | Threw(message: Option<string>, elapsed: int)

  /** What the environment contributes to one delivery: the random id, the creation time of the
      entry and the outcome of its POST. */
  datatype Attempt = Attempt(id: string, timestamp: int, outcome: PostOutcome)

  /** `WebhookDeliveryLog`. */
  datatype LogEntry = LogEntry(id: string, timestamp: int, url: string, payload: Payload,
                               success: bool, error: Option<string>, responseTime: Option<int>)

  /** The answer of `testWebhook`. */
  datatype ProbeResult = ProbeResult(success: bool, error: Option<string>, responseTime: int)

  /** `error instanceof Error ? error.message : 'Unknown error'`. */
  function ErrorText(message: Option<string>): string {
    message.GetOr("Unknown error")
  }

  /** The entry one delivery attempt records. */
  function EntryFor(payload: Payload, url: string, a: Attempt): (e: LogEntry)
    ensures e.id == a.id && e.timestamp == a.timestamp
    ensures e.url == url && e.payload == payload
    ensures e.success <==> a.outcome.Responded?
    ensures e.error.Some? <==> !e.success
    ensures a.outcome.Threw? ==> e.error == Some(ErrorText(a.outcome.message))
    ensures e.responseTime == Some(a.outcome.elapsed)
  {
    match a.outcome
    case Responded(elapsed) =>
      LogEntry(a.id, a.timestamp, url, payload, true, None, Some(elapsed))
    case Threw(message, elapsed) =>
      LogEntry(a.id, a.timestamp, url, payload, false, Some(ErrorText(message)), Some(elapsed))
  }

  /** The entries of a fan-out, one per URL, in URL order. */
  function Entries(payload: Payload, urls: seq<string>, attempts: seq<Attempt>): (es: seq<LogEntry>)
    requires |attempts| == |urls|
    ensures |es| == |urls|
    ensures forall i :: 0 <= i < |urls| ==> es[i] == EntryFor(payload, urls[i], attempts[i])
  {
    seq(|urls|, i requires 0 <= i < |urls| => EntryFor(payload, urls[i], attempts[i]))
  }

  /** One more URL adds its own entry behind the others. */
  lemma EntriesSnoc(payload: Payload, urls: seq<string>, attempts: seq<Attempt>, i: nat)
    requires |attempts| == |urls| && i < |urls|
    ensures Entries(payload, urls[..i + 1], attempts[..i + 1])
         == Entries(payload, urls[..i], attempts[..i]) + [EntryFor(payload, urls[i], attempts[i])]
  {
    var next := Entries(payload, urls[..i + 1], attempts[..i + 1]);
    var done := Entries(payload, urls[..i], attempts[..i]);
    assert next[..i] == done;
  }

  /** `s.slice(-n)` when `s` is longer than `n`, else `s` itself. */
  function Newest<T>(s: seq<T>, n: nat): (r: seq<T>)
    ensures |r| == if |s| <= n then |s| else n
    ensures r == s[|s| - |r|..]
  {
    if |s| > n then s[|s| - n..] else s
  }

  /** The log after `addToLog(e)`: append, then trim from the front back to the capacity. */
  function Append(log: seq<LogEntry>, e: LogEntry): (r: seq<LogEntry>)
    ensures |r| <= MaxLogEntries
    ensures |r| > 0 && r[|r| - 1] == e
    ensures |log| < MaxLogEntries ==> r == log + [e]
    ensures |log| == MaxLogEntries ==> r == log[1..] + [e]
  {
    Newest(log + [e], MaxLogEntries)
  }

  /** The log after a batch of entries went through `addToLog`: the newest `MaxLogEntries` of
      the old log followed by the batch. Where the batch fits, nothing is lost; a batch of at
      least `MaxLogEntries` leaves only its own newest entries. */
  function AppendAll(log: seq<LogEntry>, entries: seq<LogEntry>): (r: seq<LogEntry>)
    ensures |r| == if |log| + |entries| <= MaxLogEntries then |log| + |entries| else MaxLogEntries
    ensures r == (log + entries)[|log| + |entries| - |r|..]
    ensures |log| + |entries| <= MaxLogEntries ==> r == log + entries
    ensures |entries| >= MaxLogEntries ==> r == entries[|entries| - MaxLogEntries..]
  {
    if |entries| >= MaxLogEntries then
      NewestOfLongTail(log, entries, MaxLogEntries);
      Newest(log + entries, MaxLogEntries)
    else
      Newest(log + entries, MaxLogEntries)
  }

  /** Appending the entries one at a time is appending the batch: one more `addToLog` after a
      batch gives the log of the longer batch. */
  lemma AppendAllSnoc(log: seq<LogEntry>, entries: seq<LogEntry>, e: LogEntry)
    ensures AppendAll(log, entries + [e]) == Append(AppendAll(log, entries), e)
  {
    NewestOfNewest(log + entries, e, MaxLogEntries);
    assert (log + entries) + [e] == log + (entries + [e]);
  }

  /** The log after the first `i + 1` deliveries of a fan-out is the log after the first `i`
      with the next URL's entry added. */
  lemma DispatchStep(log: seq<LogEntry>, payload: Payload, urls: seq<string>, attempts: seq<Attempt>, i: nat)
    requires |attempts| == |urls| && i < |urls|
    ensures AppendAll(log, Entries(payload, urls[..i + 1], attempts[..i + 1]))
         == Append(AppendAll(log, Entries(payload, urls[..i], attempts[..i])), EntryFor(payload, urls[i], attempts[i]))
  {
    EntriesSnoc(payload, urls, attempts, i);
    AppendAllSnoc(log, Entries(payload, urls[..i], attempts[..i]), EntryFor(payload, urls[i], attempts[i]));
  }

  /** `[...log].reverse()`: newest first. */
  function Reverse<T>(s: seq<T>): seq<T> {
    seq(|s|, i requires 0 <= i < |s| => s[|s| - 1 - i])
  }

  /** Trimming before an append and trimming after it keep the same suffix. */
  lemma NewestOfNewest<T>(s: seq<T>, e: T, n: nat)
    ensures Newest(Newest(s, n) + [e], n) == Newest(s + [e], n)
  {
    if |s| > n && n > 0 {
      var kept := s[|s| - n..];
      assert Newest(kept + [e], n) == kept[1..] + [e];
      assert Newest(s + [e], n) == s[|s| - n + 1..] + [e];
      assert kept[1..] == s[|s| - n + 1..];
    }
  }

  /** While the log has room, a fan-out to N URLs adds exactly N entries behind the old ones,
      the i-th recording the i-th URL, the unmodified payload and that attempt's own outcome. */
  lemma {:induction false} DispatchWithinCapacity(log: seq<LogEntry>, payload: Payload, urls: seq<string>, attempts: seq<Attempt>)
    requires |attempts| == |urls| && |log| + |urls| <= MaxLogEntries
    ensures var r := AppendAll(log, Entries(payload, urls, attempts));
      && r == log + Entries(payload, urls, attempts)
      && forall i :: 0 <= i < |urls| ==>
           r[|log| + i].url == urls[i] && r[|log| + i].payload == payload
           && (r[|log| + i].success <==> attempts[i].outcome.Responded?)
  {
    var es := Entries(payload, urls, attempts);
    var r := AppendAll(log, es);
    assert r == log + es;
    forall i | 0 <= i < |urls|
      ensures r[|log| + i] == EntryFor(payload, urls[i], attempts[i])
    {
      assert r[|log| + i] == es[i];
    }
  }

  /** When the appended part alone reaches the bound, nothing of the front survives. */
  lemma NewestOfLongTail<T>(a: seq<T>, b: seq<T>, n: nat)
    requires n <= |b|
    ensures Newest(a + b, n) == b[|b| - n..]
  {
    var r := Newest(a + b, n);
    assert |r| == n;
    forall i | 0 <= i < n
      ensures r[i] == b[|b| - n + i]
    {
      assert r[i] == (a + b)[|a| + |b| - n + i];
    }
  }

  /** Reading the log shows the most recent entry first and the oldest last. */
  lemma ReverseIsNewestFirst(log: seq<LogEntry>, e: LogEntry)
    ensures var r := Reverse(Append(log, e));
      && |r| == |Append(log, e)| && r[0] == e
      && r[|r| - 1] == Append(log, e)[0]
      && Reverse(r) == Append(log, e)
  {
    var a := Append(log, e);
    assert Reverse(Reverse(a)) == a;
  }

  /** The synthetic payload `testWebhook` posts: a text message stamped with the current time,
      whose details repeat the message text. */
  function TestPayload(now: int): (p: Payload)
    ensures p.details.Sample? && p.details.kind == "chat" && p.details.timestamp == now
    ensures p.message == "This is a test message from WhatsApp Bot" && p.details.text == p.message
    ensures p.sessionId == "test_session" && p.from == "1234567890@c.us" && p.to == "test_bot@c.us"
  {
    Payload("test_session", "This is a test message from WhatsApp Bot", "1234567890@c.us", "test_bot@c.us",
            Sample("test_message_id", "chat", now, "This is a test message from WhatsApp Bot"))
  }

  /** What a connectivity probe answers for a given POST outcome. */
  function ProbeFor(outcome: PostOutcome): (r: ProbeResult)
    ensures r.success <==> outcome.Responded?
    ensures r.error.Some? <==> !r.success
    ensures outcome.Threw? ==> r.error == Some(ErrorText(outcome.message))
    ensures r.responseTime == outcome.elapsed
  {
    match outcome
    case Responded(elapsed) => ProbeResult(true, None, elapsed)
    case Threw(message, elapsed) => ProbeResult(false, Some(ErrorText(message)), elapsed)
  }

  /** `WebhookService`: one instance per process; its only state is the delivery log. */
  class WebhookService {
    var deliveryLogs: seq<LogEntry>

    /** The capacity invariant. */
    ghost predicate Valid()
      reads this
    {
      |deliveryLogs| <= MaxLogEntries
    }

    constructor ()
      ensures Valid() && deliveryLogs == []
    {
      deliveryLogs := [];
    }

    /** `sendWebhook`: no URLs, no delivery; otherwise one logged attempt per URL. The attempts
        are taken one after the other in URL order. */
    method SendWebhook(payload: Payload, webhookUrls: seq<string>, attempts: seq<Attempt>)
      requires Valid() && |attempts| == |webhookUrls|
      modifies this
      ensures Valid()
      ensures deliveryLogs == AppendAll(old(deliveryLogs), Entries(payload, webhookUrls, attempts))
      ensures |webhookUrls| == 0 ==> deliveryLogs == old(deliveryLogs)
    {
      if |webhookUrls| == 0 {
        assert AppendAll(deliveryLogs, Entries(payload, webhookUrls, attempts)) == deliveryLogs + [];
        assert deliveryLogs + [] == deliveryLogs;
        return;
      }
      var i := 0;
      while i < |webhookUrls|
        invariant 0 <= i <= |webhookUrls|
        invariant Valid()
        invariant deliveryLogs == AppendAll(old(deliveryLogs), Entries(payload, webhookUrls[..i], attempts[..i]))
      {
        DispatchStep(old(deliveryLogs), payload, webhookUrls, attempts, i);
        SendToSingleWebhook(payload, webhookUrls[i], attempts[i]);
        i := i + 1;
      }
      assert webhookUrls[..i] == webhookUrls && attempts[..i] == attempts;
    }

    /** `sendToSingleWebhook`: the entry starts as a failure, is filled in from the POST's
        outcome, and is then logged. */
    method SendToSingleWebhook(payload: Payload, url: string, attempt: Attempt)
      modifies this
      ensures deliveryLogs == Append(old(deliveryLogs), EntryFor(payload, url, attempt))
    {
      var logEntry := LogEntry(attempt.id, attempt.timestamp, url, payload, false, None, None);
      match attempt.outcome {
        case Responded(elapsed) =>
          logEntry := logEntry.(success := true);
          logEntry := logEntry.(responseTime := Some(elapsed));
        case Threw(message, elapsed) =>
          logEntry := logEntry.(success := false);
          logEntry := logEntry.(responseTime := Some(elapsed));
          logEntry := logEntry.(error := Some(ErrorText(message)));
      }
      AddToLog(logEntry);
    }

    /** `testWebhook`: posts the sample payload and reports the outcome; it has no `modifies`
        clause, so the log is untouched. */
    method TestWebhook(url: string, now: int, outcome: PostOutcome) returns (r: ProbeResult, sent: Payload)
      ensures sent == TestPayload(now)
      ensures r == ProbeFor(outcome)
    {
      sent := TestPayload(now);
      r := ProbeFor(outcome);
    }

    /** `getDeliveryLogs`: a newest-first copy; the stored log is not changed. */
    method GetDeliveryLogs() returns (r: seq<LogEntry>)
      ensures |r| == |deliveryLogs|
      ensures forall i :: 0 <= i < |r| ==> r[i] == deliveryLogs[|deliveryLogs| - 1 - i]
    {
      r := Reverse(deliveryLogs);
    }

    /** `clearDeliveryLogs`: the log becomes empty (so clearing again changes nothing). */
    method ClearDeliveryLogs()
      modifies this
      ensures Valid() && deliveryLogs == []
    {
      deliveryLogs := [];
    }

    /** `addToLog`: push, then keep only the last `MaxLogEntries` entries. */
    method AddToLog(entry: LogEntry)
      modifies this
      ensures Valid()
      ensures deliveryLogs == Append(old(deliveryLogs), entry)
    {
      deliveryLogs := deliveryLogs + [entry];
      if |deliveryLogs| > MaxLogEntries {
        deliveryLogs := deliveryLogs[|deliveryLogs| - MaxLogEntries..];
      }
    }
  }
}
