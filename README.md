# Gmail ingestion: token cache, webhook pipeline and notification records

This project models the mail-ingestion path of a property-management
backend and proves properties of that model in Dafny.

- **`GmailClient`** (integrations/gmail.py) is the Gmail REST client. It
  keeps a per-user cache of delegated access tokens. It serves a cached
  token only while it outlives the clock by more than 60 seconds;
  otherwise it refreshes the user's delegated credential and overwrites
  that user's slot. Each request carries the token as an
  `Authorization: Bearer <token>` header, the form of section 2.1 of
  RFC 6750. A non-2xx response raises, with no retry. `close` closes the
  HTTP client and empties the cache.
- **`process_gmail_webhook`** (domains/email/ingestion.py) handles one
  Pub/Sub push. It decodes the notification into a mailbox and a history
  id, and lists the mailbox's history from that id. It then fetches every
  added message, record by record and in order, and returns the fetched
  messages. An empty history gives `[]`. Any failure propagates with no
  partial list. `get_subject` finds the first header named "subject" in
  any letter case, with `"[No Subject]"` as the default.
- **The notification records** (domains/email/models.py) are three
  pydantic models with required fields read under camelCase aliases.

The module layout follows the source. `Outcomes` holds the `Option`,
`Result` and error kinds that stand for Python's exceptions. `JsonValues`
holds decoded JSON. `Decimal` holds `str()` on integers. `EmailModels`
holds the records and their validation. `Gmail` holds the client.
`Ingestion` holds the pipeline.

The client is a class whose fields are the token cache and the closed
flag. Each method is proved to change them exactly as a pure step
function says (`EnsureTokenStep`, `RequestStep`, `ListHistoryStep`,
`GetMessageStep`). Each method also appends to two ghost logs: the users
whose credentials were refreshed, and the requests handed to the HTTP
transport. The pipeline's nested loop (`ProcessGmailWebhook`, `FetchEach`,
`FetchList`) is proved to follow the specification function `Process`.
The lemmas about `Process` then state which ids are fetched, in which
order, what comes back, and where a failure stops the run.

Things outside the process are parameters:

- the clock, as integer seconds `now`, one value for a whole call;
- the delegated-credential refresh, as a function from user to
  `Refreshed(token, expiry)` or `RefreshFailed(cause)`;
- the HTTP server, as a function from request to response (`history` and
  `messages` in the pipeline);
- base64, UTF-8 and `json.loads` of the notification data, as
  `unpack: string -> Option<Json>`;
- the `GMAIL_SERVICE_ACCOUNT_FILE` environment variable, as an optional
  string passed to `GmailClient.Create`.

## Model

| member | source | states |
|---|---|---|
| `Gmail.ResolveCredentialPath` | integrations/gmail.py:22-27 | A path is chosen exactly when the argument or the environment value is present and non-empty. A non-empty argument wins; otherwise the path is the environment value. With neither, the error is `MissingCredentialPath`. |
| `Gmail.GmailClient.Create` | integrations/gmail.py:19-39 | Construction fails with `MissingCredentialPath` exactly when no path resolves. Otherwise it yields a fresh client on that path with an empty cache, open, with empty logs. |
| `Gmail.GmailClient.constructor` | integrations/gmail.py:35-39 | A new client has an empty token cache and is open. |
| `Gmail.EnsureTokenStep` | integrations/gmail.py:41-90 | A usable entry (`expires_at > now + 60`) is served with no refresh and the cache unchanged. A refresh happens exactly when there is no entry or it expires at or before `now + 60`. A successful refresh writes exactly `(token, expiry)` into the user's slot and returns the new token. A failed refresh raises `AuthError` and leaves the cache as it was, stale entry included. Only the user's slot can change. A returned token is the one cached for the user. |
| `Gmail.EnsureTokenStepKeepsOthers` | integrations/gmail.py:88 | `ensure_token(u)` leaves every other user's entry unchanged and adds no key but `u`. |
| `Gmail.RefreshedTokenIsServed` | integrations/gmail.py:55-90 | After a refresh that yields more than the buffer, the next call at the same time is a cache hit whatever the refresher would do. It makes no refresh and returns the same token. |
| `Gmail.EmptyCacheRefreshes` | integrations/gmail.py:182-188 | After `close` empties the cache, the next `ensure_token` for any user refreshes. |
| `Gmail.GmailClient.EnsureToken` | integrations/gmail.py:41-90 | The method returns what `EnsureTokenStep` returns and leaves the cache it describes. It logs a refresh for the user exactly when that step refreshes. |
| `Gmail.BearerCredential` | integrations/gmail.py:110 | The header value `"Bearer " + token` gives exactly that token back when the prefix `"Bearer "` is stripped. |
| `Gmail.BearerToken` | integrations/gmail.py:110 | A value carries a bearer token exactly when it starts with `"Bearer "`, and that prefix plus the token gives the value back. |
| `Gmail.WithAuthorization` | integrations/gmail.py:109-110 | The headers gain an `Authorization` carrying the given bearer token. Every other caller header is kept unchanged, and no other key appears. |
| `Gmail.SentHeadersAuthorize` | integrations/gmail.py:105-119 | The `Authorization` sent is `"Bearer " + token` even when the caller supplied one. The caller's other headers go out unchanged. |
| `Gmail.Interpret` | integrations/gmail.py:121-133 | The body is returned exactly on a 2xx status. Any other status raises `HttpStatusError` with that status. A transport failure raises `TransportError`. |
| `Gmail.RequestStep` | integrations/gmail.py:92-133 | The cache moves only as `ensure_token` for this user moves it. At most one request is sent, so there is no retry. A request goes out exactly when a token was obtained and the client is open. It has the given verb, endpoint, query and caller headers, and the token now cached for the same user. The result is the transport's answer to that request after `raise_for_status`. A token failure propagates. |
| `Gmail.Path` | integrations/gmail.py:151-175 | Definition, no contract: the f-string path of the history endpoint (line 151) and of the message endpoint (line 175). |
| `Gmail.CachedFrom` | integrations/gmail.py:83-88 | Definition, no contract: the entry cached for a user is the one the starting cache had, or the token and expiry the refresher hands out for that user. |
| `Gmail.EnsureTokenStepCachedFrom` | integrations/gmail.py:83-88 | `ensure_token` caches for the user only the entry already there or the refresher's token, so no token of another origin can appear. |
| `Gmail.GmailClient.Request` | integrations/gmail.py:92-133 | The method returns `RequestStep`'s result, leaves its state, and appends exactly its refreshes and sent requests to the logs. |
| `Gmail.MessagePathsDiffer` | integrations/gmail.py:175 | For one user, different message ids give different path strings `/users/{user_id}/messages/{message_id}`. |
| `Gmail.HistoryParams` | integrations/gmail.py:153-156 | The query has exactly the keys `startHistoryId` and `historyTypes`. `startHistoryId` is `str(start_history_id)`: an integer text (digits, no leading zero, a minus sign only for a negative id), and it reads back as the start id. Such a text is unique, by `Decimal.IntTextRoundTrip`. `historyTypes` is `messageAdded`. |
| `Gmail.ListHistoryStep` | integrations/gmail.py:135-157 | At most one request is sent. It is a GET of `/users/{user_id}/history` with the history query, no extra header, and the bearer token cached for the impersonated user. A result comes only from a 2xx answer to it. The client stays open or closed as it was. Only that user is refreshed. |
| `Gmail.ListHistoryStepActsAs` | integrations/gmail.py:105-110 | The history request carries no extra header and a bearer token of the impersonated user's: the cached one, or one the refresher handed out for that user. |
| `Gmail.GmailClient.ListHistory` | integrations/gmail.py:135-157 | The method returns `ListHistoryStep`'s result, leaves its state, and appends its effects to the logs. |
| `Gmail.GetMessageStep` | integrations/gmail.py:159-178 | At most one request is sent. It is a GET of `/users/{user_id}/messages/{message_id}` with `format=full`, no extra header, and the bearer token cached for the impersonated user. A result comes only from a 2xx answer to it. Only that user is refreshed. |
| `Gmail.GmailClient.GetMessage` | integrations/gmail.py:159-178 | The method returns `GetMessageStep`'s result, leaves its state, and appends its effects to the logs. |
| `Gmail.GmailClient.Close` | integrations/gmail.py:182-188 | After `close` the cache is empty and the HTTP client is closed. |
| `Gmail.GmailClient.Exit` | integrations/gmail.py:197-201 | Leaving the `async with` block closes the client and empties the cache. |
| `Decimal.NatToString` | integrations/gmail.py:154 | The decimal text of a natural number is non-empty, all digits, and has no leading zero; it is `"0"` only for zero. |
| `Decimal.IntToString` | integrations/gmail.py:154 | `str(i)` is an integer text: digits with no leading zero, preceded by a minus sign exactly when `i` is negative (so never `-0`). |
| `Decimal.NatToStringRoundTrip` | integrations/gmail.py:154 | Reading the digits back gives the number. |
| `Decimal.IntToStringRoundTrip` | integrations/gmail.py:154 | Reading `str(i)` back gives `i`, so the query string loses nothing of the history id. |
| `Decimal.NatTextRoundTrip` | integrations/gmail.py:154 | Every text of digits without a leading zero is `str` of the number it reads as. |
| `Decimal.IntTextRoundTrip` | integrations/gmail.py:154 | Every integer text is `str` of the number it reads as. With `IntToStringRoundTrip`, the texts `str` can produce are exactly the integer texts, one for each integer. |
| `EmailModels.StringField` | domains/email/models.py:22-24 | A required `str` field gives its value exactly when it is present and a string. Otherwise the validation error names the field and says missing or wrong type. |
| `EmailModels.IntField` | domains/email/models.py:12 | A required `int` field gives its value exactly when it is present and an integer. Otherwise the validation error names the field and says missing or wrong type. |
| `EmailModels.ParseMessageData` | domains/email/models.py:4-12 | Notification data is valid exactly when `emailAddress` is a string and `historyId` an integer. Their values become `email_address` and `history_id` unchanged. A missing `emailAddress` is reported first, then a missing `historyId`. |
| `EmailModels.MessageDataFields` | domains/email/models.py:4-12 | The wire form has exactly the two camelCase keys, and validating it gives the record back. |
| `EmailModels.ParsePubSubMessage` | domains/email/models.py:15-24 | An envelope is valid exactly when `data`, `messageId` and `publishTime` are strings, and it holds their values. An error names one of the three fields, and that field is not a string. |
| `EmailModels.PubSubMessageFields` | domains/email/models.py:15-24 | The wire form has exactly the three keys, and validating it gives the envelope back. |
| `EmailModels.ParsePushRequest` | domains/email/models.py:27-35 | A push request is valid exactly when `message` is a valid envelope object and `subscription` a string. A missing `message` is reported as such. An error inside the envelope is that error, located under `message`, and names an envelope field that is not a string. Any other error names `message` or `subscription`, and that field is invalid. |
| `EmailModels.PushRequestFields` | domains/email/models.py:27-35 | The wire form has exactly the two keys, and validating it gives the push request back. |
| `Ingestion.Decode` | domains/email/ingestion.py:10-21 | Data that does not unpack is `UndecodableData`. JSON that is not an object is `NotAnObject`. An object is validated as notification data. A decoded result holds exactly the object's `emailAddress` and `historyId`. |
| `Ingestion.DecodeInvertsEncoding` | domains/email/ingestion.py:10-21 | Decoding data that unpacks to the wire form of a notification gives that notification back. |
| `Ingestion.Records` | domains/email/ingestion.py:57 | Definition, no contract: `history_response.get("history", [])`, so a missing `history` is the empty list. |
| `Ingestion.Added` | domains/email/ingestion.py:64 | Definition, no contract: `item.get("messagesAdded", [])`. |
| `Ingestion.AddedMessages` | domains/email/ingestion.py:63-66 | Definition, no contract: every record's added entries, record by record, in order. Its properties are the two lemmas below. |
| `Ingestion.AddedMessagesAppend` | domains/email/ingestion.py:63-66 | The added-message list of two runs of records is the concatenation of their lists, in order. |
| `Ingestion.AddedMessagesCount` | domains/email/ingestion.py:63-66 | The number of entries fetched is the sum of the `messagesAdded` lengths. Records without the key add nothing, and repeats are kept. |
| `Ingestion.FetchStep` | domains/email/ingestion.py:70-74 | One fetch sends at most one request. That request is a `get_message` request for that id, with no extra header and the bearer token now cached for the user, and the result is `raise_for_status` applied to its answer. A result is the 2xx body. A failure without a request is a closed client or a failed refresh of the user. The cache moves as `ensure_token` moves it. Only the user is refreshed, and no other user's entry is touched. |
| `Ingestion.FetchAll` | domains/email/ingestion.py:65-77 | The loop over the added entries, fetching each in order and stopping at the first failure. A list comes back only when every entry had an id, with one message per entry. |
| `Ingestion.FetchRecords` | domains/email/ingestion.py:63-77 | The nested loop over the records. A list comes back only with one message per added entry of every record, with no de-duplication. |
| `Ingestion.FetchAllAppend` | domains/email/ingestion.py:63-77 | Fetching `a + b` is fetching `a`. If that succeeded, it is followed by fetching `b` from the state `a` left, with results and effects concatenated. |
| `Ingestion.FetchRecordsIsFetchAll` | domains/email/ingestion.py:63-77 | The nested loop over records and their `messagesAdded` equals one loop over the flattened ids, in order. |
| `Ingestion.FetchList` | domains/email/ingestion.py:65-77 | The inner loop returns, leaves and logs exactly what the flat fetch specification says for that record's entries. |
| `Ingestion.FetchEach` | domains/email/ingestion.py:63-77 | The outer loop returns, leaves and logs exactly what the record-by-record specification says. |
| `Ingestion.Process` | domains/email/ingestion.py:24-91 | Definition, no contract: one webhook run from a client state. It decodes, lists history as the decoded user, returns `[]` on an empty history, and otherwise fetches the flattened ids. The lemmas below state its properties. |
| `Ingestion.ProcessGmailWebhook` | domains/email/ingestion.py:24-91 | The pipeline's result, final client state, refreshes and sent requests are exactly those of `Process`. |
| `Ingestion.ProcessStopsEarly` | domains/email/ingestion.py:44-60 | A decode failure propagates before any API call, with nothing changed. The first request is the history query from the decoded history id. A failed history query propagates with its own error and no message fetched. A non-2xx or failed answer to the history request is the run's error. A missing or empty history returns `[]` after that one request. |
| `Ingestion.FetchAllSucceeded` | domains/email/ingestion.py:63-77 | A successful loop has one result and one request per pending entry. The k-th request fetches the k-th id, and the k-th result is the 2xx body answering it. |
| `Ingestion.FetchAllError` | domains/email/ingestion.py:66-88 | A failed loop returns its failing entry's own error. That is the non-2xx answer or transport failure of its last request; or, at the entry after the last request, a missing `message.id`, a closed client, or a failed refresh of the user. |
| `Ingestion.FetchAllFailed` | domains/email/ingestion.py:66-88 | A failed loop sent requests only for a prefix of the entries, in order. Every request before the last was answered with 2xx, so the loop stopped at the first failure, and nothing after the failing entry was fetched. The error is that entry's own. |
| `Ingestion.FetchAllTokens` | domains/email/ingestion.py:70-74 | Every request of the loop carries no extra header and a bearer token of the user's. That token was cached when the loop began or was handed out by the refresher for that user. |
| `Ingestion.FetchAllImpersonates` | domains/email/ingestion.py:70-74 | Every request of the loop carries a bearer token of the impersonated user's and no extra header. The loop refreshes only that user, touches no other user's cache entry and leaves the closed flag alone. |
| `Ingestion.ProcessSucceeded` | domains/email/ingestion.py:49-91 | A successful run queried history from the decoded id and got a 2xx answer. It then fetched exactly the announced ids, in order, one request each. It returns their 2xx bodies in that order. |
| `Ingestion.ProcessFailed` | domains/email/ingestion.py:63-88 | A failed run whose history query got a 2xx answer returns no list. Its message requests are those of a prefix of the announced ids, in order, each before the last answered with 2xx. It ends with the failing message's own error, so later ids are not fetched. |
| `Ingestion.ProcessImpersonates` | domains/email/ingestion.py:51-74 | Every call of a run acts as the decoded `emailAddress`. Each request, history and messages alike, carries no extra header and a bearer token of that user's: the one cached at the start, or one the refresher handed out for that user. Only that user is refreshed, and only that user's cache slot can change. |
| `Ingestion.Lower` | domains/email/ingestion.py:105 | Lower-casing keeps the length and leaves no upper-case letter. Every character is kept or is an upper-case letter replaced by its lower-case one. |
| `Ingestion.SubjectValue` | domains/email/ingestion.py:104-107 | The result is the value of the first header whose lower-cased name is `subject`, or `"[No Subject]"` when there is none. |
| `Ingestion.HeadersOf` | domains/email/ingestion.py:103 | Definition, no contract: `message.get("payload", {}).get("headers", [])`, with a missing payload or headers giving no headers. |
| `Ingestion.GetSubject` | domains/email/ingestion.py:94-107 | A missing `payload` or `headers` gives `"[No Subject]"`. Otherwise the result is the first Subject header's value, or `"[No Subject]"` when there is none. |
| `Ingestion.SubjectMatchIgnoresCase` | domains/email/ingestion.py:105 | A header is the Subject header exactly when its name has seven letters, each being the letter of `subject` in lower or upper case. |

## Left out

- `with_subject` and the credential refresh are Google library calls. They are the `refresh` parameter, and the `gmail.readonly` scope they are created with is not modelled.
- Gmail.GmailClient.Create: succeeds on any non-empty path. In the source, `from_service_account_file` makes the constructor raise when the file cannot be loaded (integrations/gmail.py:30-32). The model does not read the file, so that failure can only show up later, as a `RefreshFailed` outcome of a refresh.
- The httpx transport is I/O. This covers the 30-second timeout, the base URL and its joining with the endpoint path (`Gmail.Path` renders only the path), response JSON decoding, and keyword arguments other than `headers` and `params`.
- The case-insensitive header dictionary of httpx is not modelled. A caller header `authorization` in another case is kept beside the new `Authorization`.
- Gmail.RequestStep: the caller's `headers` dict is popped and mutated in place in the source. The model keeps the caller's headers and the token side by side in the request (`SentHeaders` combines them), and does not model the caller seeing the mutation.
- Gmail.Interpret: `HTTPStatusError` is modelled by its status code alone. The response body and the message it carries are left out.
- Calling a closed httpx client raises inside the transport. The model returns `ClientClosed` at that point, after `ensure_token` has run.
- `asyncio.to_thread` and the unsynchronised check-then-refresh race between concurrent calls are about concurrency. Every call is one sequential step.
- `time.time()` and `expiry.timestamp()` are floats. Time is integer seconds, and one `now` serves a whole webhook run.
- Gmail.EnsureTokenStep: the refresh outcome depends on the user alone, and the clock is a parameter fixed for the call. Within one run, once a refresh for a user has succeeded, every later refresh for that user succeeds with the same token. So the model cannot show a refresh that fails, or a token that expires, after an earlier call of the same run got a token (the `ValueError` of integrations/gmail.py:78 raised by a later `get_message`).
- Ingestion.Process: for the same reason, a run whose `list_history` got a token cannot fail on a later refresh or expiry. Its message fetches fail only through a missing `message.id`, a non-2xx answer or a transport failure.
- Base64, UTF-8 and JSON decoding of the notification data are library calls (RFC 4648 section 4, RFC 8259). They are the `unpack` parameter, and decoded numbers are integers only.
- EmailModels.IntField: only a JSON integer is accepted. Pydantic's lax coercion, such as the string `"123"` for an `int`, is not modelled.
- EmailModels.ParseMessageData: pydantic reports every invalid field at once. The model reports the first one, in field order.
- EmailModels.ParsePubSubMessage: reports only the first invalid field, in field order, where pydantic reports them all.
- EmailModels.ParsePushRequest: reports only the first invalid field, in field order, where pydantic reports them all.
- In the Gmail responses, a JSON `null` under `history`, `messagesAdded`, `payload` or `headers` is treated like a missing key. (In the notification records a present `null` is a wrong-type error, as in pydantic.) For `history` that matches the source, where `if not history_items` returns `[]` for `None` (domains/email/ingestion.py:58). For `messagesAdded` and `headers` the source iterates `None` and raises `TypeError`. For `payload` the source calls `.get` on `None` and raises `AttributeError`. The model instead treats these as an empty list, or as no headers and so `"[No Subject]"`.
- Malformed API responses are not modelled. This covers a history entry or message whose shape differs from the Gmail resource, and a header without `name`, which raises `KeyError` in the source. A `messagesAdded` entry without `message.id` is modelled as `MissingKey`.
- Ingestion.Lower: only ASCII letters are lower-cased. Python's Unicode `str.lower()` is not modelled.
- All logging is left out, including the `get_subject` call at domains/email/ingestion.py:76, which exists only for a log line.
- `__aenter__` only returns the client and is left out.
- The FastAPI router, application start-up, the watch-registration script, the logging setup and the property-management record types are not part of this model.
