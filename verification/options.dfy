/**
 * Construction of an SQS readable stream: the option record, its field-by-field
 * defaults, the check that an SQS client was supplied, and the parameters of
 * every `receiveMessage` request.
 */
module StreamOptions {
  import opened Wrappers

  /** A value of a JavaScript option object or request parameter object. */
  datatype Value = Null | Num(n: int) | Str(s: string) | StrList(items: seq<string>)

  /** A plain JavaScript object: its own enumerable properties. */
  type Record = map<string, Value>

  /** What construction can observe of the SQS client: whether `receiveMessage` is a function. */
  datatype SqsClient = SqsClient(receiveMessageIsFunction: bool)

  /**
   * The options object given to the constructor. `None` is a property that is
   * absent or undefined; `sqsClient == None` also covers any falsy client.
   */
  datatype UserOptions = UserOptions(
    sqsClient: Option<SqsClient>,
    queueUrl: Option<string>,
    retryOnErrors: Option<bool>,
    initialBackoff: Option<int>,
    maxBackoff: Option<int>,
    receiveMessageOptions: Option<Record>,
    stopOnQueueEmpty: Option<bool>)

  /** The settings a constructed stream keeps. A queue URL of `None` is JavaScript's `null`. */
  datatype Config = Config(
    client: SqsClient,
    queueUrl: Option<string>,
    retryOnErrors: bool,
    maxBackoff: int,
    initialBackoff: int,
    receiveMessageOptions: Record,
    stopOnQueueEmpty: bool)

  /** Why construction throws. */
  datatype ConstructError =
    | OptionsMissing     // no options object at all: with underscore 1.7-1.8, reading its properties raises a TypeError
    | NotAnSqsClient     // "Please pass in a SQS object from the AWS SDK"

  const DefaultInitialBackoff: int := 100
  const DefaultMaxBackoff: int := 15000
  /** The value `maxBackoff` takes when it was given as 0. */
  const FalsyMaxBackoff: int := 60000
  const DefaultMaxNumberOfMessages: int := 10
  const DefaultWaitTimeSeconds: int := 20

  /** The defaults merged into `receiveMessageOptions`. */
  function ReceiveDefaults(): (r: Record) {
    map["AttributeNames" := StrList(["All"]),
        "MaxNumberOfMessages" := Num(DefaultMaxNumberOfMessages),
        "WaitTimeSeconds" := Num(DefaultWaitTimeSeconds)]
  }

  /**
   * Underscore's `defaults(obj, defaults)`: every property of `defaults` that
   * `obj` lacks is added; the properties `obj` has are kept.
   */
  function Defaults(obj: Record, defaults: Record): (r: Record)
    ensures r.Keys == obj.Keys + defaults.Keys
    ensures forall k :: k in obj ==> r[k] == obj[k]
    ensures forall k :: k in defaults && k !in obj ==> r[k] == defaults[k]
  {
    defaults + obj
  }

  /** JavaScript's `n || fallback` on a number: 0 is falsy. */
  function OrIfZero(n: int, fallback: int): (r: int) {
    if n == 0 then fallback else n
  }

  /** The `receiveMessageOptions` the user gave, or the empty object. */
  function UserReceiveOptions(o: UserOptions): (r: Record) {
    o.receiveMessageOptions.GetOr(map[])
  }

  /** Whether the client passes the constructor's capability test. */
  predicate HasReceiveMessage(o: UserOptions) {
    o.sqsClient.Some? && o.sqsClient.value.receiveMessageIsFunction
  }

  /**
   * The option handling of the constructor: defaults for absent options,
   * `||`-fallbacks for falsy backoffs, and the throw when no usable SQS client
   * was given.
   */
  function Configure(opts: Option<UserOptions>): (r: Result<Config, ConstructError>)
    ensures r.Failure? <==> opts.None? || !HasReceiveMessage(opts.value)
    ensures r.Failure? ==> (r.error == OptionsMissing <==> opts.None?)
    ensures r.Success? ==>
      var o, c := opts.value, r.value;
      && c.client == o.sqsClient.value
      && c.queueUrl == o.queueUrl
      && c.initialBackoff != 0
      && (o.initialBackoff.None? || o.initialBackoff == Some(0) ==> c.initialBackoff == DefaultInitialBackoff)
      && (o.initialBackoff.Some? && o.initialBackoff.value != 0 ==> c.initialBackoff == o.initialBackoff.value)
      && c.maxBackoff != 0
      && (o.maxBackoff.None? ==> c.maxBackoff == DefaultMaxBackoff)
      && (o.maxBackoff == Some(0) ==> c.maxBackoff == FalsyMaxBackoff)
      && (o.maxBackoff.Some? && o.maxBackoff.value != 0 ==> c.maxBackoff == o.maxBackoff.value)
      && c.retryOnErrors == (o.retryOnErrors != Some(false))
      && c.stopOnQueueEmpty == (o.stopOnQueueEmpty == Some(true))
    ensures r.Success? ==>
      var user, rmo := UserReceiveOptions(opts.value), r.value.receiveMessageOptions;
      && (forall k :: k in user ==> k in rmo && rmo[k] == user[k])
      && (forall k :: k in rmo <==> k in user || k in ReceiveDefaults())
      && (forall k :: k in ReceiveDefaults() && k !in user ==> rmo[k] == ReceiveDefaults()[k])
  {
    match opts
    case None => Failure(OptionsMissing)
    case Some(o) =>
      if !HasReceiveMessage(o) then Failure(NotAnSqsClient)
      else
        Success(Config(
          client := o.sqsClient.value,
          queueUrl := o.queueUrl,
          retryOnErrors := o.retryOnErrors.GetOr(true),
          maxBackoff := OrIfZero(o.maxBackoff.GetOr(DefaultMaxBackoff), FalsyMaxBackoff),
          initialBackoff := OrIfZero(o.initialBackoff.GetOr(DefaultInitialBackoff), DefaultInitialBackoff),
          receiveMessageOptions := Defaults(UserReceiveOptions(o), ReceiveDefaults()),
          stopOnQueueEmpty := o.stopOnQueueEmpty.GetOr(false)))
  }

  /** The stream's queue URL as a parameter value. */
  function UrlValue(queueUrl: Option<string>): (v: Value) {
    match queueUrl
    case Some(u) => Str(u)
    case None => Null
  }

  /**
   * The parameters of a `receiveMessage` request: the stream's `QueueUrl`,
   * which wins over any `QueueUrl` in the receive options, and every other
   * receive option unchanged.
   */
  function RequestParams(queueUrl: Option<string>, receiveOptions: Record): (p: Record)
    ensures "QueueUrl" in p && p["QueueUrl"] == UrlValue(queueUrl)
    ensures forall k :: k != "QueueUrl" ==> (k in p <==> k in receiveOptions)
    ensures forall k :: k in receiveOptions && k != "QueueUrl" ==> p[k] == receiveOptions[k]
  {
    Defaults(map["QueueUrl" := UrlValue(queueUrl)], receiveOptions)
  }

  /**
   * Every request of a configured stream asks for the stream's own queue, and
   * for 10 messages, a 20 second long poll and all attributes unless the user
   * chose otherwise.
   */
  lemma ConfiguredRequestParams(o: UserOptions)
    requires Configure(Some(o)).Success?
    ensures
      var c := Configure(Some(o)).value;
      var p, user := RequestParams(c.queueUrl, c.receiveMessageOptions), UserReceiveOptions(o);
      && p["QueueUrl"] == UrlValue(o.queueUrl)
      && ("MaxNumberOfMessages" !in user ==> p["MaxNumberOfMessages"] == Num(DefaultMaxNumberOfMessages))
      && ("WaitTimeSeconds" !in user ==> p["WaitTimeSeconds"] == Num(DefaultWaitTimeSeconds))
      && ("AttributeNames" !in user ==> p["AttributeNames"] == StrList(["All"]))
      && (forall k :: k in user && k != "QueueUrl" ==> k in p && p[k] == user[k])
  {
    var c := Configure(Some(o)).value;
    var user := UserReceiveOptions(o);
    assert "MaxNumberOfMessages" in ReceiveDefaults() && "WaitTimeSeconds" in ReceiveDefaults();
    assert "AttributeNames" in ReceiveDefaults();
  }
}
