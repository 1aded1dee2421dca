/** The Pub/Sub notification records of domains/email/models.py.

    Each pydantic model is a datatype holding its Python field names; its
    validation is a `Parse...` function from the decoded JSON object
    (member name to value) to the record or a `ValidationError`. Every
    field is required and is read under its camelCase wire name (the
    pydantic alias); other members are ignored, as pydantic does by
    default. The matching `...Fields` function writes a record back under
    its wire names, and each states that validation gives the record back
    unchanged. */
module EmailModels {
  import opened Outcomes
  import opened JsonValues

  /** Decoded Gmail notification: which mailbox changed, and from where to read its history. */
  datatype PubSubMessageData = PubSubMessageData(emailAddress: string, historyId: int)

  /** Pub/Sub envelope; `data` is the base64 text of the notification. */
  datatype PubSubMessage = PubSubMessage(data: string, messageId: string, publishTime: string)

  /** The body Pub/Sub POSTs to the webhook. */
  datatype PubSubPushRequest = PubSubPushRequest(message: PubSubMessage, subscription: string)

  const EmailAddressKey: string := "emailAddress"
  const HistoryIdKey: string := "historyId"
  const DataKey: string := "data"
  const MessageIdKey: string := "messageId"
  const PublishTimeKey: string := "publishTime"
  const MessageKey: string := "message"
  const SubscriptionKey: string := "subscription"

  predicate HasString(fields: map<string, Json>, key: string) {
    key in fields && fields[key].JString?
  }

  predicate HasInt(fields: map<string, Json>, key: string) {
    key in fields && fields[key].JInt?
  }

  /** A required `str` field. */
  function StringField(fields: map<string, Json>, key: string): (r: Result<string>)
    ensures r.Ok? <==> HasString(fields, key)
    ensures r.Ok? ==> r.value == fields[key].s
    ensures r.Err? ==> r.error == ValidationError([key], if key in fields then WrongType else Missing)
  {
    if key !in fields then Err(ValidationError([key], Missing))
    else match fields[key]
      case JString(s) => Ok(s)
      case _ => Err(ValidationError([key], WrongType))
  }

  /** A required `int` field. */
  function IntField(fields: map<string, Json>, key: string): (r: Result<int>)
    ensures r.Ok? <==> HasInt(fields, key)
    ensures r.Ok? ==> r.value == fields[key].i
    ensures r.Err? ==> r.error == ValidationError([key], if key in fields then WrongType else Missing)
  {
    if key !in fields then Err(ValidationError([key], Missing))
    else match fields[key]
      case JInt(i) => Ok(i)
      case _ => Err(ValidationError([key], WrongType))
  }

  /** `PubSubMessageData(**fields)`: both fields required, read under their aliases. */
  function ParseMessageData(fields: map<string, Json>): (r: Result<PubSubMessageData>)
    ensures r.Ok? <==> HasString(fields, EmailAddressKey) && HasInt(fields, HistoryIdKey)
    ensures r.Ok? ==> (r.value.emailAddress == fields[EmailAddressKey].s
                       && r.value.historyId == fields[HistoryIdKey].i)
    ensures EmailAddressKey !in fields ==> r == Err(ValidationError([EmailAddressKey], Missing))
    ensures HasString(fields, EmailAddressKey) && HistoryIdKey !in fields ==>
              r == Err(ValidationError([HistoryIdKey], Missing))
  {
    var email :- StringField(fields, EmailAddressKey);
    var history :- IntField(fields, HistoryIdKey);
    Ok(PubSubMessageData(email, history))
  }

  /** The wire form of a notification, `{emailAddress, historyId}`. */
  function MessageDataFields(d: PubSubMessageData): (fields: map<string, Json>)
    ensures fields.Keys == {EmailAddressKey, HistoryIdKey}
    ensures ParseMessageData(fields) == Ok(d)
  {
    map[EmailAddressKey := JString(d.emailAddress), HistoryIdKey := JInt(d.historyId)]
  }

  /** `PubSubMessage(**fields)`: `data`, `messageId` and `publishTime` required. */
  function ParsePubSubMessage(fields: map<string, Json>): (r: Result<PubSubMessage>)
    ensures r.Ok? <==> HasString(fields, DataKey) && HasString(fields, MessageIdKey)
                       && HasString(fields, PublishTimeKey)
    ensures r.Ok? ==> r.value == PubSubMessage(fields[DataKey].s, fields[MessageIdKey].s,
                                               fields[PublishTimeKey].s)
    // an error names one of the three fields, and that field is not a string
    ensures r.Err? ==> && r.error.ValidationError? && |r.error.loc| == 1
                       && r.error.loc[0] in {DataKey, MessageIdKey, PublishTimeKey}
                       && !HasString(fields, r.error.loc[0])
  {
    var data :- StringField(fields, DataKey);
    var messageId :- StringField(fields, MessageIdKey);
    var publishTime :- StringField(fields, PublishTimeKey);
    Ok(PubSubMessage(data, messageId, publishTime))
  }

  function PubSubMessageFields(m: PubSubMessage): (fields: map<string, Json>)
    ensures fields.Keys == {DataKey, MessageIdKey, PublishTimeKey}
    ensures ParsePubSubMessage(fields) == Ok(m)
  {
    map[DataKey := JString(m.data), MessageIdKey := JString(m.messageId),
        PublishTimeKey := JString(m.publishTime)]
  }

  /** `PubSubPushRequest(**fields)`: `message` must be an object that is itself a
      valid envelope (its errors are reported under `message`), and
      `subscription` a string. */
  function ParsePushRequest(fields: map<string, Json>): (r: Result<PubSubPushRequest>)
    ensures r.Ok? <==> MessageKey in fields && fields[MessageKey].JObject?
                       && ParsePubSubMessage(fields[MessageKey].fields).Ok?
                       && HasString(fields, SubscriptionKey)
    ensures r.Ok? ==> (r.value.message == ParsePubSubMessage(fields[MessageKey].fields).value
                       && r.value.subscription == fields[SubscriptionKey].s)
    ensures MessageKey !in fields ==> r == Err(ValidationError([MessageKey], Missing))
    ensures MessageKey in fields && fields[MessageKey].JObject? &&
            ParsePubSubMessage(fields[MessageKey].fields).Err? ==>
              && r.Err? && r.error.ValidationError? && |r.error.loc| == 2 && r.error.loc[0] == MessageKey
              && r.error == ValidationError([MessageKey] + ParsePubSubMessage(fields[MessageKey].fields).error.loc,
                                            ParsePubSubMessage(fields[MessageKey].fields).error.problem)
              && r.error.loc[1] in {DataKey, MessageIdKey, PublishTimeKey}
              && !HasString(fields[MessageKey].fields, r.error.loc[1])
    // otherwise an error names `message` or `subscription`, and that field is not valid
    ensures r.Err? ==> r.error.ValidationError? && 1 <= |r.error.loc| <= 2
    ensures r.Err? && |r.error.loc| == 1 ==>
              || (r.error.loc[0] == MessageKey && !(MessageKey in fields && fields[MessageKey].JObject?))
              || (r.error.loc[0] == SubscriptionKey && !HasString(fields, SubscriptionKey))
  {
    if MessageKey !in fields then Err(ValidationError([MessageKey], Missing))
    else if !fields[MessageKey].JObject? then Err(ValidationError([MessageKey], WrongType))
    else match ParsePubSubMessage(fields[MessageKey].fields)
      case Err(e) =>
        (match e
         case ValidationError(loc, p) => Err(ValidationError([MessageKey] + loc, p))
         case _ => Err(e))
      case Ok(message) =>
        var subscription :- StringField(fields, SubscriptionKey);
        Ok(PubSubPushRequest(message, subscription))
  }

  function PushRequestFields(p: PubSubPushRequest): (fields: map<string, Json>)
    ensures fields.Keys == {MessageKey, SubscriptionKey}
    ensures ParsePushRequest(fields) == Ok(p)
  {
    map[MessageKey := JObject(PubSubMessageFields(p.message)),
        SubscriptionKey := JString(p.subscription)]
  }
}
