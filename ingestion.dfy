/** domains/email/ingestion.py: from a Pub/Sub push notification to the list
    of Gmail messages it announces.

    `Process` is the specification of one webhook run, threading the
    client state through every API call; `ProcessGmailWebhook` is the
    source's nested loop, proved to follow it. The lemmas after it state
    what a run promises: the ids fetched, their order, the results, and
    where a failure stops the run. */
module Ingestion {
  import opened Outcomes
  import opened JsonValues
  import opened EmailModels
  import opened Gmail

  /** The `user_id` every call uses: the impersonated account itself. */
  const Me: string := "me"

  /** What `get_subject` answers when there is no Subject header. */
  const NoSubject: string := "[No Subject]"

  /* ---------------------------------------------------------------------
     Decoding the notification
     --------------------------------------------------------------------- */

  /** `decode_pubsub_message(payload)`. `unpack` stands for base64 decoding,
      UTF-8 decoding and `json.loads` of `payload.message.data`, `None`
      when any of them fails. */
  function Decode(payload: PubSubPushRequest, unpack: string -> Option<Json>): (r: Result<PubSubMessageData>)
    ensures unpack(payload.message.data).None? ==> r == Err(UndecodableData)
    ensures unpack(payload.message.data).Some? && !unpack(payload.message.data).value.JObject? ==>
              r == Err(NotAnObject)
    ensures unpack(payload.message.data).Some? && unpack(payload.message.data).value.JObject? ==>
              r == ParseMessageData(unpack(payload.message.data).value.fields)
    ensures r.Ok? ==> && unpack(payload.message.data).Some?
                      && unpack(payload.message.data).value.JObject?
                      && unpack(payload.message.data).value.fields[EmailAddressKey] == JString(r.value.emailAddress)
                      && unpack(payload.message.data).value.fields[HistoryIdKey] == JInt(r.value.historyId)
  {
    match unpack(payload.message.data)
    case None => Err(UndecodableData)
    case Some(value) =>
      if value.JObject? then ParseMessageData(value.fields) else Err(NotAnObject)
  }

  /** Decoding undoes the encoding of a notification into the envelope. */
  lemma DecodeInvertsEncoding(d: PubSubMessageData, payload: PubSubPushRequest, unpack: string -> Option<Json>)
    requires unpack(payload.message.data) == Some(JObject(MessageDataFields(d)))
    ensures Decode(payload, unpack) == Ok(d)
  {
  }

  /* ---------------------------------------------------------------------
     The ids a history response announces
     --------------------------------------------------------------------- */

  /** `history_response.get("history", [])` */
  function Records(response: HistoryList): seq<HistoryRecord> {
    response.history.GetOr([])
  }

  /** `item.get("messagesAdded", [])` */
  function Added(record: HistoryRecord): seq<MessageAdded> {
    record.messagesAdded.GetOr([])
  }

  /** Every record's added messages, record by record, in order, repeats kept. */
  function AddedMessages(records: seq<HistoryRecord>): seq<MessageAdded>
    decreases |records|
  {
    if records == [] then [] else Added(records[0]) + AddedMessages(records[1..])
  }

  lemma {:induction false} AddedMessagesAppend(a: seq<HistoryRecord>, b: seq<HistoryRecord>)
    ensures AddedMessages(a + b) == AddedMessages(a) + AddedMessages(b)
    decreases |a|
  {
    if a != [] {
      assert (a + b)[0] == a[0];
      assert (a + b)[1..] == a[1..] + b;
      AddedMessagesAppend(a[1..], b);
      assert Added(a[0]) + (AddedMessages(a[1..]) + AddedMessages(b))
          == (Added(a[0]) + AddedMessages(a[1..])) + AddedMessages(b);
    } else {
      assert a + b == b;
    }
  }

  /** The number of ids fetched is the sum of the lists' lengths: no
      de-duplication, and records without `messagesAdded` add nothing. */
  function CountAdded(records: seq<HistoryRecord>): nat
    decreases |records|
  {
    if records == [] then 0 else |Added(records[0])| + CountAdded(records[1..])
  }

  lemma {:induction false} AddedMessagesCount(records: seq<HistoryRecord>)
    ensures |AddedMessages(records)| == CountAdded(records)
    decreases |records|
  {
    if records != [] {
      AddedMessagesCount(records[1..]);
    }
  }

  /* ---------------------------------------------------------------------
     The specification of a run
     --------------------------------------------------------------------- */

  /** What a run (or the rest of one) does: its result, the client state it
      leaves, the users refreshed and the requests sent. */
  datatype Run = Run(result: Result<seq<Message>>, state: ClientState,
                     refreshes: seq<string>, sent: seq<HttpRequest>)

  /** `rest`, preceded by messages already fetched and the effects that fetched them. */
  function After(done: seq<Message>, refreshes: seq<string>, sent: seq<HttpRequest>, rest: Run): Run {
    Run(match rest.result
        case Ok(ms) => Ok(done + ms)
        case Err(e) => Err(e),
        rest.state, refreshes + rest.refreshes, sent + rest.sent)
  }

  lemma AfterNothing(rest: Run)
    ensures After([], [], [], rest) == rest
  {
    if rest.result.Ok? {
      assert [] + rest.result.value == rest.result.value;
    }
    assert [] + rest.refreshes == rest.refreshes;
    assert [] + rest.sent == rest.sent;
  }

  lemma ConcatAssociates<T>(a: seq<T>, b: seq<T>, c: seq<T>)
    ensures a + (b + c) == (a + b) + c
  {
  }

  lemma AfterAfter(done: seq<Message>, more: seq<Message>, r1: seq<string>, s1: seq<HttpRequest>,
                   r2: seq<string>, s2: seq<HttpRequest>, rest: Run)
    ensures After(done, r1, s1, After(more, r2, s2, rest)) == After(done + more, r1 + r2, s1 + s2, rest)
  {
    if rest.result.Ok? {
      assert done + (more + rest.result.value) == (done + more) + rest.result.value;
    }
    assert r1 + (r2 + rest.refreshes) == (r1 + r2) + rest.refreshes;
    assert s1 + (s2 + rest.sent) == (s1 + s2) + rest.sent;
  }

  /** What the loop does for one id: `get_message(Me, id, user)` from a client state. */
  function MessageFetch(user: string, now: int, refresh: string -> RefreshOutcome,
                        messages: HttpRequest -> HttpResponse<Message>): (fetch: (ClientState, string) -> Exchange<Message>)
    ensures FetchesAs(fetch, user, now, refresh, messages)
  {
    (s: ClientState, id: string) => GetMessageStep(s, Me, id, user, now, refresh, messages)
  }

  /** `fetch` is `get_message(Me, id, user)`, stated point by point at the
      calls actually made, so that the loop proofs below meet the call's
      definition only where the code makes one. */
  ghost predicate FetchesAs(fetch: (ClientState, string) -> Exchange<Message>, user: string, now: int,
                      refresh: string -> RefreshOutcome, messages: HttpRequest -> HttpResponse<Message>)
  {
    forall s: ClientState, id: string {:trigger GetMessageStep(s, Me, id, user, now, refresh, messages)} ::
      fetch(s, id) == GetMessageStep(s, Me, id, user, now, refresh, messages)
  }

  /** The loop over the added messages: `fetch` each in order, stop at the first failure. */
  function FetchAll(st: ClientState, pending: seq<MessageAdded>,
                    fetch: (ClientState, string) -> Exchange<Message>): (run: Run)
    // a list comes back only when every entry had an id and was fetched
    ensures run.result.Ok? ==> && |run.result.value| == |pending|
                               && forall k :: 0 <= k < |pending| ==> pending[k].messageId.Some?
    decreases |pending|
  {
    if pending == [] then Run(Ok([]), st, [], [])
    else match pending[0].messageId
      case None => Run(Err(MissingKey("message.id")), st, [], [])
      case Some(id) =>
        var x := fetch(st, id);
        if x.result.Err? then Run(Err(x.result.error), x.state, x.refreshes, x.sent)
        else After([x.result.value], x.refreshes, x.sent, FetchAll(x.state, pending[1..], fetch))
  }

  /** Fetching `a + b` is fetching `a`, then, unless that failed, `b` from
      the state `a` left. */
  lemma {:induction false} FetchAllAppend(st: ClientState, a: seq<MessageAdded>, b: seq<MessageAdded>,
                                          fetch: (ClientState, string) -> Exchange<Message>)
    ensures var f := FetchAll(st, a, fetch);
            (FetchAll(st, a + b, fetch)
             == if f.result.Err? then f else After(f.result.value, f.refreshes, f.sent, FetchAll(f.state, b, fetch)))
    decreases |a|
  {
    if a == [] {
      assert a + b == b;
      AfterNothing(FetchAll(st, b, fetch));
    } else {
      assert (a + b)[0] == a[0];
      assert (a + b)[1..] == a[1..] + b;
      match a[0].messageId
      case None =>
      case Some(id) =>
        var x := fetch(st, id);
        if x.result.Ok? {
          FetchAllAppend(x.state, a[1..], b, fetch);
          var g := FetchAll(x.state, a[1..], fetch);
          if g.result.Ok? {
            AfterAfter([x.result.value], g.result.value, x.refreshes, x.sent, g.refreshes, g.sent,
                       FetchAll(g.state, b, fetch));
          }
        }
    }
  }

  /** The loop as the source nests it: each record's added messages in
      turn, stopping at the first failure. */
  function FetchRecords(st: ClientState, items: seq<HistoryRecord>,
                        fetch: (ClientState, string) -> Exchange<Message>): (run: Run)
    // a list comes back only with one message per added entry of every record
    ensures run.result.Ok? ==> |run.result.value| == CountAdded(items)
    decreases |items|
  {
    if items == [] then Run(Ok([]), st, [], [])
    else
      var f := FetchAll(st, Added(items[0]), fetch);
      if f.result.Err? then f
      else After(f.result.value, f.refreshes, f.sent, FetchRecords(f.state, items[1..], fetch))
  }

  /** Nesting the loop changes nothing: record by record is the flat loop
      over all added messages. */
  lemma {:induction false} FetchRecordsIsFetchAll(st: ClientState, items: seq<HistoryRecord>,
                                                  fetch: (ClientState, string) -> Exchange<Message>)
    ensures FetchRecords(st, items, fetch) == FetchAll(st, AddedMessages(items), fetch)
    decreases |items|
  {
    if items != [] {
      FetchAllAppend(st, Added(items[0]), AddedMessages(items[1..]), fetch);
      var f := FetchAll(st, Added(items[0]), fetch);
      if f.result.Ok? {
        FetchRecordsIsFetchAll(f.state, items[1..], fetch);
      }
    }
  }

  /** `process_gmail_webhook(payload, client)` from client state `st`. */
  function Process(st: ClientState, payload: PubSubPushRequest, unpack: string -> Option<Json>,
                   now: int, refresh: string -> RefreshOutcome,
                   history: HttpRequest -> HttpResponse<HistoryList>,
                   messages: HttpRequest -> HttpResponse<Message>): (run: Run)
  {
    match Decode(payload, unpack)
    case Err(e) => Run(Err(e), st, [], [])
    case Ok(d) =>
      var h := ListHistoryStep(st, Me, d.historyId, d.emailAddress, now, refresh, history);
      match h.result
      case Err(e) => Run(Err(e), h.state, h.refreshes, h.sent)
      case Ok(response) =>
        if Records(response) == [] then Run(Ok([]), h.state, h.refreshes, h.sent)
        else
          var f := FetchAll(h.state, AddedMessages(Records(response)),
                            MessageFetch(d.emailAddress, now, refresh, messages));
          Run(f.result, f.state, h.refreshes + f.refreshes, h.sent + f.sent)
  }
  /** Where a run stops early: a notification that does not decode, a
      history query that fails, and a history with no records. */
  lemma ProcessStopsEarly(st: ClientState, payload: PubSubPushRequest, unpack: string -> Option<Json>,
                          now: int, refresh: string -> RefreshOutcome,
                          history: HttpRequest -> HttpResponse<HistoryList>,
                          messages: HttpRequest -> HttpResponse<Message>)
    ensures var run := Process(st, payload, unpack, now, refresh, history, messages);
            && (Decode(payload, unpack).Err? ==> run == Run(Err(Decode(payload, unpack).error), st, [], []))
            && (|run.sent| > 0 ==> (Decode(payload, unpack).Ok?
                                    && IsHistoryRequest(run.sent[0], Me, Decode(payload, unpack).value.historyId)))
            && (Decode(payload, unpack).Ok? ==>
                  var d := Decode(payload, unpack).value;
                  var h := ListHistoryStep(st, Me, d.historyId, d.emailAddress, now, refresh, history);
                  && (h.result.Err? ==> run.result == Err(h.result.error) && run.sent == h.sent
                                        && run.state == h.state)
                  && (h.result.Ok? && Records(h.result.value) == [] ==> run.result == Ok([]) && |run.sent| == 1))
            && (|run.sent| >= 1 && !Succeeded(history(run.sent[0])) ==>
                  |run.sent| == 1 && run.result == Err(Interpret(history(run.sent[0])).error))
  {
  }


  /* ---------------------------------------------------------------------
     The pipeline
     --------------------------------------------------------------------- */

  /** `process_gmail_webhook(payload, gmail_client)`. */
  method ProcessGmailWebhook(payload: PubSubPushRequest, client: GmailClient,
                             unpack: string -> Option<Json>, now: int,
                             refresh: string -> RefreshOutcome,
                             history: HttpRequest -> HttpResponse<HistoryList>,
                             messages: HttpRequest -> HttpResponse<Message>)
    returns (r: Result<seq<Message>>)
    modifies client`tokenCache, client`refreshLog, client`sentLog
    ensures var run := Process(old(client.State()), payload, unpack, now, refresh, history, messages);
            && r == run.result
            && client.State() == run.state
            && client.refreshLog == old(client.refreshLog) + run.refreshes
            && client.sentLog == old(client.sentLog) + run.sent
  {
    var decoded := Decode(payload, unpack);
    if decoded.Err? {
      return Err(decoded.error);
    }
    var data := decoded.value;
    ghost var h := ListHistoryStep(client.State(), Me, data.historyId, data.emailAddress, now, refresh, history);
    var historyResponse := client.ListHistory(Me, data.historyId, data.emailAddress, now, refresh, history);
    if historyResponse.Err? {
      return Err(historyResponse.error);
    }
    var items := Records(historyResponse.value);
    if items == [] {
      return Ok([]);
    }
    ghost var fetch := MessageFetch(data.emailAddress, now, refresh, messages);
    ghost var f := FetchAll(client.State(), AddedMessages(items), fetch);
    FetchRecordsIsFetchAll(client.State(), items, fetch);
    r := FetchEach(client, items, data.emailAddress, now, refresh, messages, fetch);
    ConcatAssociates(old(client.refreshLog), h.refreshes, f.refreshes);
    ConcatAssociates(old(client.sentLog), h.sent, f.sent);
  }

  /** The outer loop of `process_gmail_webhook`: each history record's
      added messages in turn, the first failure leaving with no list. */
  method FetchEach(client: GmailClient, items: seq<HistoryRecord>, user: string, now: int,
                   refresh: string -> RefreshOutcome, messages: HttpRequest -> HttpResponse<Message>,
                   ghost fetch: (ClientState, string) -> Exchange<Message>)
    returns (r: Result<seq<Message>>)
    requires FetchesAs(fetch, user, now, refresh, messages)
    modifies client`tokenCache, client`refreshLog, client`sentLog
    ensures var run := FetchRecords(old(client.State()), items, fetch);
            && r == run.result
            && client.State() == run.state
            && client.refreshLog == old(client.refreshLog) + run.refreshes
            && client.sentLog == old(client.sentLog) + run.sent
  {
    // the whole run, preceded by the logs as they stood at the call
    ghost var total := FetchRecords(client.State(), items, fetch);
    ghost var expected := After([], client.refreshLog, client.sentLog, total);
    assert total.result.Ok? ==> [] + total.result.value == total.result.value;
    var processed: seq<Message> := [];
    var i := 0;
    assert items[i..] == items;
    while i < |items|
      invariant 0 <= i <= |items|
      invariant expected == After(processed, client.refreshLog, client.sentLog,
                                  FetchRecords(client.State(), items[i..], fetch))
    {
      assert items[i..][0] == items[i] && items[i..][1..] == items[i + 1..];
      ghost var f := FetchAll(client.State(), Added(items[i]), fetch);
      ghost var refreshLog, sentLog := client.refreshLog, client.sentLog;
      var fetched := FetchList(client, Added(items[i]), user, now, refresh, messages, fetch);
      if fetched.Err? {
        return fetched;
      }
      AfterAfter(processed, fetched.value, refreshLog, sentLog, f.refreshes, f.sent,
                 FetchRecords(f.state, items[i + 1..], fetch));
      processed := processed + fetched.value;
      i := i + 1;
    }
    assert items[i..] == [];
    assert processed + [] == processed && client.refreshLog + [] == client.refreshLog
        && client.sentLog + [] == client.sentLog;
    return Ok(processed);
  }

  /** The inner loop of `process_gmail_webhook`: `get_message` as `user` for
      each added message in order, appending the result; the first failure
      leaves with no list. */
  method FetchList(client: GmailClient, added: seq<MessageAdded>, user: string, now: int,
                   refresh: string -> RefreshOutcome, messages: HttpRequest -> HttpResponse<Message>,
                   ghost fetch: (ClientState, string) -> Exchange<Message>)
    returns (r: Result<seq<Message>>)
    requires FetchesAs(fetch, user, now, refresh, messages)
    modifies client`tokenCache, client`refreshLog, client`sentLog
    ensures var run := FetchAll(old(client.State()), added, fetch);
            && r == run.result
            && client.State() == run.state
            && client.refreshLog == old(client.refreshLog) + run.refreshes
            && client.sentLog == old(client.sentLog) + run.sent
  {
    ghost var total := FetchAll(client.State(), added, fetch);
    ghost var expected := After([], client.refreshLog, client.sentLog, total);
    assert total.result.Ok? ==> [] + total.result.value == total.result.value;
    var processed: seq<Message> := [];
    var j := 0;
    assert added[j..] == added;
    while j < |added|
      invariant 0 <= j <= |added|
      invariant expected == After(processed, client.refreshLog, client.sentLog,
                                  FetchAll(client.State(), added[j..], fetch))
    {
      assert added[j..][0] == added[j] && added[j..][1..] == added[j + 1..];
      match added[j].messageId
      case None =>
        return Err(MissingKey("message.id"));
      case Some(id) =>
        ghost var x := GetMessageStep(client.State(), Me, id, user, now, refresh, messages);
        ghost var refreshLog, sentLog := client.refreshLog, client.sentLog;
        var email := client.GetMessage(Me, id, user, now, refresh, messages);
        if email.Err? {
          return Err(email.error);
        }
        AfterAfter(processed, [email.value], refreshLog, sentLog, x.refreshes, x.sent,
                   FetchAll(x.state, added[j + 1..], fetch));
        processed := processed + [email.value];
      j := j + 1;
    }
    assert added[j..] == [];
    assert processed + [] == processed && client.refreshLog + [] == client.refreshLog
        && client.sentLog + [] == client.sentLog;
    return Ok(processed);
  }

  /* ---------------------------------------------------------------------
     What a run promises
     --------------------------------------------------------------------- */

  /** The transport answered with a 2xx status. */
  predicate Succeeded<B>(response: HttpResponse<B>) {
    response.HttpResponse? && IsSuccess(response.status)
  }

  /** The transport answered with a 2xx status and `body`. */
  predicate Answered(response: HttpResponse<Message>, body: Message) {
    Succeeded(response) && response.body == body
  }

  /** The errors a call can end with before it sends anything: the client
      is closed, or the refresh of `user`'s credential failed. When both
      hold, the source raises the refresh failure if the call needed a
      refresh (the token is obtained before the send) and the closed
      client otherwise; this predicate admits either, since it does not
      see the cache at the failing call. */
  predicate UnsentError(e: Error, closed: bool, user: string, refresh: string -> RefreshOutcome) {
    || (closed && e == ClientClosed)
    || (refresh(user).RefreshFailed? && e == AuthError(user, refresh(user).cause))
  }

  /** What one fetch of the loop promises, read off `get_message`. */
  lemma FetchStep(st: ClientState, id: string, fetch: (ClientState, string) -> Exchange<Message>,
                  user: string, now: int, refresh: string -> RefreshOutcome,
                  messages: HttpRequest -> HttpResponse<Message>)
    requires FetchesAs(fetch, user, now, refresh, messages)
    ensures var x := fetch(st, id);
            && |x.sent| <= 1
            && (|x.sent| == 1 ==> (IsMessageRequest(x.sent[0], Me, id)
                                   && AuthorizedAs(x.sent[0], x.state.cache, user)
                                   && x.result == Interpret(messages(x.sent[0]))))
            && (x.result.Ok? ==> |x.sent| == 1 && Answered(messages(x.sent[0]), x.result.value))
            && (x.result.Err? && |x.sent| == 0 ==> UnsentError(x.result.error, st.closed, user, refresh))
            && x.state.closed == st.closed
            && x.state.cache == EnsureTokenStep(st.cache, user, now, refresh).cache
            && x.state.cache.Keys <= st.cache.Keys + {user}
            && (forall u :: u in st.cache && u != user ==> u in x.state.cache && x.state.cache[u] == st.cache[u])
            && (forall k :: 0 <= k < |x.refreshes| ==> x.refreshes[k] == user)
  {
    var x := GetMessageStep(st, Me, id, user, now, refresh, messages);
    EnsureTokenStepKeepsOthers(st.cache, user, now, refresh);
  }

  /** Every request of the loop carries a token of `user`'s, counting from
      the cache `origin` the run started with, and the cache keeps only
      such a token for `user`. */
  lemma {:induction false} FetchAllTokens(st: ClientState, origin: map<string, CachedToken>,
                                          pending: seq<MessageAdded>,
                                          fetch: (ClientState, string) -> Exchange<Message>, user: string,
                                          now: int, refresh: string -> RefreshOutcome,
                                          messages: HttpRequest -> HttpResponse<Message>)
    requires FetchesAs(fetch, user, now, refresh, messages)
    requires CachedFrom(st.cache, origin, user, refresh)
    ensures var run := FetchAll(st, pending, fetch);
            && CachedFrom(run.state.cache, origin, user, refresh)
            && forall k :: 0 <= k < |run.sent| ==> ActsAs(run.sent[k], origin, user, refresh)
    decreases |pending|
  {
    if pending != [] && pending[0].messageId.Some? {
      var id := pending[0].messageId.value;
      FetchStep(st, id, fetch, user, now, refresh, messages);
      EnsureTokenStepCachedFrom(st.cache, origin, user, now, refresh);
      var x := fetch(st, id);
      if x.result.Ok? {
        FetchAllTokens(x.state, origin, pending[1..], fetch, user, now, refresh, messages);
        var run := FetchAll(st, pending, fetch);
        var rest := FetchAll(x.state, pending[1..], fetch);
        assert run.sent == x.sent + rest.sent;
        forall k | 0 <= k < |run.sent|
          ensures ActsAs(run.sent[k], origin, user, refresh)
        {
          if k > 0 {
            assert run.sent[k] == rest.sent[k - 1];
          }
        }
      }
    }
  }

  /** On success every pending entry was fetched once, in order, and the
      k-th result is the transport's 2xx answer to the k-th request. */
  lemma {:induction false} FetchAllSucceeded(st: ClientState, pending: seq<MessageAdded>,
                                             fetch: (ClientState, string) -> Exchange<Message>, user: string,
                                             now: int, refresh: string -> RefreshOutcome,
                                             messages: HttpRequest -> HttpResponse<Message>)
    requires FetchesAs(fetch, user, now, refresh, messages)
    requires FetchAll(st, pending, fetch).result.Ok?
    ensures var run := FetchAll(st, pending, fetch);
            && |run.result.value| == |pending| && |run.sent| == |pending|
            && forall k :: 0 <= k < |pending| ==>
                 && pending[k].messageId.Some?
                 && IsMessageRequest(run.sent[k], Me, pending[k].messageId.value)
                 && Answered(messages(run.sent[k]), run.result.value[k])
    decreases |pending|
  {
    if pending != [] {
      var id := pending[0].messageId.value;
      FetchStep(st, id, fetch, user, now, refresh, messages);
      var x := fetch(st, id);
      var rest := FetchAll(x.state, pending[1..], fetch);
      FetchAllSucceeded(x.state, pending[1..], fetch, user, now, refresh, messages);
      var run := FetchAll(st, pending, fetch);
      assert run.sent == x.sent + rest.sent;
      assert run.result.value == [x.result.value] + rest.result.value;
      forall k | 0 <= k < |pending|
        ensures && pending[k].messageId.Some?
                && IsMessageRequest(run.sent[k], Me, pending[k].messageId.value)
                && Answered(messages(run.sent[k]), run.result.value[k])
      {
        if k > 0 {
          assert pending[k] == pending[1..][k - 1];
        }
      }
    }
  }

  /** A failed run of the loop over `pending`, having sent `sent`, ended
      with the error `e` of its failing entry: the non-2xx answer or
      transport failure of its last request, or, at the entry after the
      last request, a missing `message.id` or a call that failed before
      sending (a closed client or a failed refresh; `UnsentError` says
      which of the two it can be). */
  predicate FailedWith(e: Error, sent: seq<HttpRequest>, pending: seq<MessageAdded>, closed: bool, user: string,
                       refresh: string -> RefreshOutcome, messages: HttpRequest -> HttpResponse<Message>)
  {
    || (|sent| >= 1 && !Succeeded(messages(sent[|sent| - 1])) && Err(e) == Interpret(messages(sent[|sent| - 1])))
    || (|sent| < |pending| && pending[|sent|].messageId.None? && e == MissingKey("message.id"))
    || (|sent| < |pending| && pending[|sent|].messageId.Some? && UnsentError(e, closed, user, refresh))
  }

  /** The error a failed loop returns is its failing entry's own. */
  lemma {:induction false} FetchAllError(st: ClientState, pending: seq<MessageAdded>,
                                         fetch: (ClientState, string) -> Exchange<Message>, user: string,
                                         now: int, refresh: string -> RefreshOutcome,
                                         messages: HttpRequest -> HttpResponse<Message>)
    requires FetchesAs(fetch, user, now, refresh, messages)
    requires FetchAll(st, pending, fetch).result.Err?
    ensures var run := FetchAll(st, pending, fetch);
            FailedWith(run.result.error, run.sent, pending, st.closed, user, refresh, messages)
    decreases |pending|
  {
    if pending[0].messageId.Some? {
      var id := pending[0].messageId.value;
      FetchStep(st, id, fetch, user, now, refresh, messages);
      var x := fetch(st, id);
      if x.result.Ok? {
        var run := FetchAll(st, pending, fetch);
        var rest := FetchAll(x.state, pending[1..], fetch);
        FetchAllError(x.state, pending[1..], fetch, user, now, refresh, messages);
        assert run.sent == x.sent + rest.sent && run.result == rest.result;
        if |rest.sent| >= 1 {
          assert run.sent[|run.sent| - 1] == rest.sent[|rest.sent| - 1];
        }
        if |rest.sent| < |pending| - 1 {
          assert pending[|run.sent|] == pending[1..][|rest.sent|];
        }
      }
    }
  }

  /** On failure the run stopped at its first failing entry, with that
      entry's own error (`FailedWith`): the requests sent are those of a
      prefix of the pending entries, in order, each before the last was
      answered with a 2xx status, and nothing after the failing entry was
      fetched. */
  lemma {:induction false} FetchAllFailed(st: ClientState, pending: seq<MessageAdded>,
                                          fetch: (ClientState, string) -> Exchange<Message>, user: string,
                                          now: int, refresh: string -> RefreshOutcome,
                                          messages: HttpRequest -> HttpResponse<Message>)
    requires FetchesAs(fetch, user, now, refresh, messages)
    requires FetchAll(st, pending, fetch).result.Err?
    ensures var run := FetchAll(st, pending, fetch);
            && |run.sent| <= |pending|
            && (forall k :: 0 <= k < |run.sent| ==>
                  pending[k].messageId.Some? && IsMessageRequest(run.sent[k], Me, pending[k].messageId.value))
            && (forall k :: 0 <= k < |run.sent| - 1 ==>
                  Succeeded(messages(run.sent[k])))
            && FailedWith(run.result.error, run.sent, pending, st.closed, user, refresh, messages)
    decreases |pending|
  {
    FetchAllError(st, pending, fetch, user, now, refresh, messages);
    var run := FetchAll(st, pending, fetch);
    if pending[0].messageId.Some? {
      var id := pending[0].messageId.value;
      FetchStep(st, id, fetch, user, now, refresh, messages);
      var x := fetch(st, id);
      if x.result.Ok? {
        var rest := FetchAll(x.state, pending[1..], fetch);
        FetchAllFailed(x.state, pending[1..], fetch, user, now, refresh, messages);
        assert run.sent == x.sent + rest.sent;
        forall k | 0 <= k < |run.sent|
          ensures pending[k].messageId.Some? && IsMessageRequest(run.sent[k], Me, pending[k].messageId.value)
        {
          if k > 0 {
            assert pending[k] == pending[1..][k - 1];
            assert run.sent[k] == rest.sent[k - 1];
          }
        }
        forall k | 0 <= k < |run.sent| - 1
          ensures Succeeded(messages(run.sent[k]))
        {
          if k > 0 {
            assert run.sent[k] == rest.sent[k - 1];
          }
        }
      }
    }
  }

  /** A run acts only as `user`: every request carries no header of its
      own and a bearer token of `user`'s (the one cached at the start, or
      one the refresher handed out for `user`), every refresh is for `user`,
      the other users' cache entries are untouched and the client stays
      open or closed as it was. */
  lemma {:induction false} FetchAllImpersonates(st: ClientState, pending: seq<MessageAdded>,
                                                fetch: (ClientState, string) -> Exchange<Message>, user: string,
                                                now: int, refresh: string -> RefreshOutcome,
                                                messages: HttpRequest -> HttpResponse<Message>)
    requires FetchesAs(fetch, user, now, refresh, messages)
    ensures var run := FetchAll(st, pending, fetch);
            && run.state.closed == st.closed
            && run.state.cache.Keys <= st.cache.Keys + {user}
            && (forall u :: u in st.cache && u != user ==> u in run.state.cache && run.state.cache[u] == st.cache[u])
            && (forall k :: 0 <= k < |run.refreshes| ==> run.refreshes[k] == user)
            && (forall k :: 0 <= k < |run.sent| ==> ActsAs(run.sent[k], st.cache, user, refresh))
    decreases |pending|
  {
    FetchAllTokens(st, st.cache, pending, fetch, user, now, refresh, messages);
    if pending != [] && pending[0].messageId.Some? {
      var id := pending[0].messageId.value;
      FetchStep(st, id, fetch, user, now, refresh, messages);
      var x := fetch(st, id);
      if x.result.Ok? {
        FetchAllImpersonates(x.state, pending[1..], fetch, user, now, refresh, messages);
      }
    }
  }

  /** A successful run fetched, after the history query, exactly the
      announced ids in order, and returns the 2xx bodies in that order. */
  lemma ProcessSucceeded(st: ClientState, payload: PubSubPushRequest, unpack: string -> Option<Json>,
                         now: int, refresh: string -> RefreshOutcome,
                         history: HttpRequest -> HttpResponse<HistoryList>,
                         messages: HttpRequest -> HttpResponse<Message>)
    requires Process(st, payload, unpack, now, refresh, history, messages).result.Ok?
    ensures var run := Process(st, payload, unpack, now, refresh, history, messages);
            && Decode(payload, unpack).Ok?
            && |run.sent| >= 1
            && IsHistoryRequest(run.sent[0], Me, Decode(payload, unpack).value.historyId)
            && Succeeded(history(run.sent[0]))
            && var ids := AddedMessages(Records(history(run.sent[0]).body));
               && |run.result.value| == |ids| && |run.sent| == 1 + |ids|
               && forall k :: 0 <= k < |ids| ==>
                    && ids[k].messageId.Some?
                    && IsMessageRequest(run.sent[1 + k], Me, ids[k].messageId.value)
                    && Answered(messages(run.sent[1 + k]), run.result.value[k])
  {
    var run := Process(st, payload, unpack, now, refresh, history, messages);
    var d := Decode(payload, unpack).value;
    var h := ListHistoryStep(st, Me, d.historyId, d.emailAddress, now, refresh, history);
    var response := h.result.value;
    var ids := AddedMessages(Records(response));
    if Records(response) == [] {
      assert ids == [];
    } else {
      FetchAllSucceeded(h.state, ids, MessageFetch(d.emailAddress, now, refresh, messages),
                        d.emailAddress, now, refresh, messages);
      var f := FetchAll(h.state, ids, MessageFetch(d.emailAddress, now, refresh, messages));
      assert run.sent == h.sent + f.sent && run.result == f.result;
      forall k | 0 <= k < |ids|
        ensures run.sent[1 + k] == f.sent[k]
      {
      }
    }
  }

  /** A failed run whose history query got a 2xx answer returns no list,
      and stopped at the first failing message with that message's own
      error: its message requests are, in order, those of a prefix of the
      announced ids, each before the last answered with a 2xx status. */
  lemma ProcessFailed(st: ClientState, payload: PubSubPushRequest, unpack: string -> Option<Json>,
                      now: int, refresh: string -> RefreshOutcome,
                      history: HttpRequest -> HttpResponse<HistoryList>,
                      messages: HttpRequest -> HttpResponse<Message>)
    requires Process(st, payload, unpack, now, refresh, history, messages).result.Err?
    ensures var run := Process(st, payload, unpack, now, refresh, history, messages);
            |run.sent| >= 1 && Succeeded(history(run.sent[0])) ==>
              && Decode(payload, unpack).Ok?
              && var ids := AddedMessages(Records(history(run.sent[0]).body));
                 && |run.sent| <= 1 + |ids|
                 && (forall k :: 0 <= k < |run.sent| - 1 ==>
                      ids[k].messageId.Some? && IsMessageRequest(run.sent[1 + k], Me, ids[k].messageId.value))
                 && (forall k :: 1 <= k < |run.sent| - 1 ==> Succeeded(messages(run.sent[k])))
                 && FailedWith(run.result.error, run.sent[1..], ids, st.closed,
                               Decode(payload, unpack).value.emailAddress, refresh, messages)
  {
    var run := Process(st, payload, unpack, now, refresh, history, messages);
    if |run.sent| >= 1 && Succeeded(history(run.sent[0])) {
      var d := Decode(payload, unpack).value;
      var h := ListHistoryStep(st, Me, d.historyId, d.emailAddress, now, refresh, history);
      var ids := AddedMessages(Records(h.result.value));
      var fetch := MessageFetch(d.emailAddress, now, refresh, messages);
      FetchAllFailed(h.state, ids, fetch, d.emailAddress, now, refresh, messages);
      var f := FetchAll(h.state, ids, fetch);
      assert run.sent[1..] == f.sent;
      forall k | 0 <= k < |run.sent| - 1
        ensures run.sent[1 + k] == f.sent[k]
      {
      }
    }
  }

  /** Every call of a run impersonates the decoded `emailAddress`: each
      request carries that user's bearer token and no other header, only
      that user's credentials are refreshed and only that user's cache slot
      moves. */
  lemma ProcessImpersonates(st: ClientState, payload: PubSubPushRequest, unpack: string -> Option<Json>,
                            now: int, refresh: string -> RefreshOutcome,
                            history: HttpRequest -> HttpResponse<HistoryList>,
                            messages: HttpRequest -> HttpResponse<Message>)
    requires Decode(payload, unpack).Ok?
    ensures var run := Process(st, payload, unpack, now, refresh, history, messages);
            var user := Decode(payload, unpack).value.emailAddress;
            && run.state.closed == st.closed
            && run.state.cache.Keys <= st.cache.Keys + {user}
            && (forall u :: u in st.cache && u != user ==> u in run.state.cache && run.state.cache[u] == st.cache[u])
            && (forall k :: 0 <= k < |run.refreshes| ==> run.refreshes[k] == user)
            && (forall k :: 0 <= k < |run.sent| ==> ActsAs(run.sent[k], st.cache, user, refresh))
  {
    var d := Decode(payload, unpack).value;
    var h := ListHistoryStep(st, Me, d.historyId, d.emailAddress, now, refresh, history);
    ListHistoryStepActsAs(st, Me, d.historyId, d.emailAddress, now, refresh, history);
    if h.result.Ok? && Records(h.result.value) != [] {
      var fetch := MessageFetch(d.emailAddress, now, refresh, messages);
      var ids := AddedMessages(Records(h.result.value));
      FetchAllImpersonates(h.state, ids, fetch, d.emailAddress, now, refresh, messages);
      FetchAllTokens(h.state, st.cache, ids, fetch, d.emailAddress, now, refresh, messages);
      var f := FetchAll(h.state, ids, fetch);
      AllActAs(h.sent, f.sent, st.cache, d.emailAddress, refresh);
    }
  }

  lemma AllActAs(a: seq<HttpRequest>, b: seq<HttpRequest>, origin: map<string, CachedToken>, user: string,
                 refresh: string -> RefreshOutcome)
    requires forall k :: 0 <= k < |a| ==> ActsAs(a[k], origin, user, refresh)
    requires forall k :: 0 <= k < |b| ==> ActsAs(b[k], origin, user, refresh)
    ensures forall k :: 0 <= k < |a + b| ==> ActsAs((a + b)[k], origin, user, refresh)
  {
  }

  /* ---------------------------------------------------------------------
     get_subject
     --------------------------------------------------------------------- */

  /** `str.lower()` on one character, for the ASCII letters. */
  function LowerChar(c: char): char {
    if 'A' <= c <= 'Z' then (c as int - 'A' as int + 'a' as int) as char else c
  }

  /** `str.lower()` for ASCII text. */
  function Lower(s: string): (r: string)
    ensures |r| == |s|
    // no upper-case letter is left
    ensures forall k :: 0 <= k < |r| ==> !('A' <= r[k] <= 'Z')
    // each character is kept, or is an upper-case letter replaced by its lower-case one
    ensures forall k :: 0 <= k < |s| ==>
              r[k] == s[k] || ('A' <= s[k] <= 'Z' && r[k] as int - s[k] as int == 'a' as int - 'A' as int)
  {
    seq(|s|, k requires 0 <= k < |s| => LowerChar(s[k]))
  }

  /** The name `get_subject` looks for, and its upper-case spelling. */
  const SubjectLower: string := "subject"
  const SubjectUpper: string := "SUBJECT"

  predicate IsSubjectHeader(h: Header) {
    Lower(h.name) == SubjectLower
  }

  /** The loop over `headers`: the value of the first Subject header. */
  function SubjectValue(headers: seq<Header>): (r: string)
    ensures (forall j :: 0 <= j < |headers| ==> !IsSubjectHeader(headers[j])) ==> r == NoSubject
    ensures forall k :: 0 <= k < |headers| && IsSubjectHeader(headers[k])
                        && (forall j :: 0 <= j < k ==> !IsSubjectHeader(headers[j])) ==>
                          r == headers[k].value
    decreases |headers|
  {
    if headers == [] then NoSubject
    else if IsSubjectHeader(headers[0]) then headers[0].value
    else SubjectValue(headers[1..])
  }

  /** `message.get("payload", {}).get("headers", [])` */
  function HeadersOf(message: Message): seq<Header> {
    match message.payload
    case None => []
    case Some(part) => part.headers.GetOr([])
  }

  /** `get_subject(message)` */
  function GetSubject(message: Message): (r: string)
    ensures message.payload.None? ==> r == NoSubject
    ensures message.payload.Some? && message.payload.value.headers.None? ==> r == NoSubject
    ensures (forall j :: 0 <= j < |HeadersOf(message)| ==> !IsSubjectHeader(HeadersOf(message)[j])) ==>
              r == NoSubject
    ensures forall k :: 0 <= k < |HeadersOf(message)| && IsSubjectHeader(HeadersOf(message)[k])
                        && (forall j :: 0 <= j < k ==> !IsSubjectHeader(HeadersOf(message)[j])) ==>
                          r == HeadersOf(message)[k].value
  {
    SubjectValue(HeadersOf(message))
  }

  /** A header is the Subject header exactly when its name spells
      "subject" with each letter in either case. */
  lemma SubjectMatchIgnoresCase(h: Header)
    ensures IsSubjectHeader(h) <==>
              |h.name| == |SubjectLower| &&
              forall k :: 0 <= k < |SubjectLower| ==> h.name[k] == SubjectLower[k] || h.name[k] == SubjectUpper[k]
  {
    var n := h.name;
    if |n| == |SubjectLower| {
      forall k | 0 <= k < |SubjectLower|
        ensures (Lower(n)[k] == SubjectLower[k]) <==> (n[k] == SubjectLower[k] || n[k] == SubjectUpper[k])
      {
        assert SubjectUpper[k] as int - SubjectLower[k] as int == 'A' as int - 'a' as int by {
          assert k == 0 || k == 1 || k == 2 || k == 3 || k == 4 || k == 5 || k == 6;
        }
      }
      if forall k :: 0 <= k < |SubjectLower| ==> n[k] == SubjectLower[k] || n[k] == SubjectUpper[k] {
        assert Lower(n) == SubjectLower;
      }
    }
  }

}
