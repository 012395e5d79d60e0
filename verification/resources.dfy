/**
  Queues and topics as resources: their creation parameters, the shift of
  optional arguments with their defaults, and the bodies of the
  "get attributes" and "create" requests.
 */
module Resources {
  import opened Js

  datatype Kind = Queue | Topic

  const DefaultMaxMsgHeapNum := 10000000
  const DefaultPollingWaitSeconds := 0
  const DefaultVisibilityTimeout := 30
  const DefaultMaxMsgSize := 65536
  const DefaultMsgRetentionSeconds := 345600
  const DefaultFilterType := 0

  /** The creation parameters of a resource, as forwarded to the service.
      They are not validated locally: any value the caller passes is kept. */
  datatype CreationParams =
    | QueueParams(maxMsgHeapNum: Value, pollingWaitSeconds: Value, visibilityTimeout: Value,
                  maxMsgSize: Value, msgRetentionSeconds: Value)
    | TopicParams(maxMsgSize: Value, filterType: Value)
  {
    function KindOf(): Kind {
      if QueueParams? then Queue else Topic
    }
  }

  /** The positional arguments a queue method receives after the queue name,
      `Undefined` where the caller left one out. */
  datatype QueueArgs = QueueArgs(maxMsgHeapNum: Value, pollingWaitSeconds: Value, visibilityTimeout: Value,
                                 maxMsgSize: Value, msgRetentionSeconds: Value, next: Value)

  /** The positional arguments a topic method receives after the topic name. */
  datatype TopicArgs = TopicArgs(maxMsgSize: Value, filterType: Value, next: Value)

  /** The queue parameters used when the caller supplies none. */
  function DefaultQueueParams(): CreationParams {
    QueueParams(Num(DefaultMaxMsgHeapNum), Num(DefaultPollingWaitSeconds), Num(DefaultVisibilityTimeout),
                Num(DefaultMaxMsgSize), Num(DefaultMsgRetentionSeconds))
  }

  /** The topic parameters used when the caller supplies none. */
  function DefaultTopicParams(): CreationParams {
    TopicParams(Num(DefaultMaxMsgSize), Num(DefaultFilterType))
  }

  /** `CreateQueue`/`AssertQueue` argument handling: defaults replace omitted
      arguments; then, when the value in the `maxMsgHeapNum` position is a
      function, it becomes the callback and `maxMsgHeapNum` goes back to its
      default. Only that one position is inspected. */
  function ResolveQueueArgs(a: QueueArgs): (r: (CreationParams, Callback))
    ensures r.0.QueueParams?
    ensures IsFunction(a.maxMsgHeapNum) ==> r.1 == Handler(a.maxMsgHeapNum)
    ensures !IsFunction(a.maxMsgHeapNum) ==> r.1 == CallbackFrom(a.next)
    ensures !IsFunction(r.0.maxMsgHeapNum)
    ensures IsFunction(a.maxMsgHeapNum) || a.maxMsgHeapNum == Undefined ==> r.0.maxMsgHeapNum == Num(DefaultMaxMsgHeapNum)
    ensures !IsFunction(a.maxMsgHeapNum) && a.maxMsgHeapNum != Undefined ==> r.0.maxMsgHeapNum == a.maxMsgHeapNum
    ensures r.0.pollingWaitSeconds == Default(a.pollingWaitSeconds, Num(DefaultPollingWaitSeconds))
    ensures r.0.visibilityTimeout == Default(a.visibilityTimeout, Num(DefaultVisibilityTimeout))
    ensures r.0.maxMsgSize == Default(a.maxMsgSize, Num(DefaultMaxMsgSize))
    ensures r.0.msgRetentionSeconds == Default(a.msgRetentionSeconds, Num(DefaultMsgRetentionSeconds))
  {
    var heap := Default(a.maxMsgHeapNum, Num(DefaultMaxMsgHeapNum));
    var next := CallbackFrom(a.next);
    var (heap', next') := if IsFunction(heap) then (Num(DefaultMaxMsgHeapNum), Handler(heap)) else (heap, next);
    (QueueParams(heap',
                 Default(a.pollingWaitSeconds, Num(DefaultPollingWaitSeconds)),
                 Default(a.visibilityTimeout, Num(DefaultVisibilityTimeout)),
                 Default(a.maxMsgSize, Num(DefaultMaxMsgSize)),
                 Default(a.msgRetentionSeconds, Num(DefaultMsgRetentionSeconds))),
     next')
  }

  /** `CreateTopic`/`AssertTopic` argument handling: the same shift, on the
      `maxMsgSize` position. */
  function ResolveTopicArgs(a: TopicArgs): (r: (CreationParams, Callback))
    ensures r.0.TopicParams?
    ensures IsFunction(a.maxMsgSize) ==> r.1 == Handler(a.maxMsgSize)
    ensures !IsFunction(a.maxMsgSize) ==> r.1 == CallbackFrom(a.next)
    ensures IsFunction(a.maxMsgSize) || a.maxMsgSize == Undefined ==> r.0.maxMsgSize == Num(DefaultMaxMsgSize)
    ensures !IsFunction(a.maxMsgSize) && a.maxMsgSize != Undefined ==> r.0.maxMsgSize == a.maxMsgSize
    ensures r.0.filterType == Default(a.filterType, Num(DefaultFilterType))
  {
    var size := Default(a.maxMsgSize, Num(DefaultMaxMsgSize));
    var next := CallbackFrom(a.next);
    var (size', next') := if IsFunction(size) then (Num(DefaultMaxMsgSize), Handler(size)) else (size, next);
    (TopicParams(size', Default(a.filterType, Num(DefaultFilterType))), next')
  }

  /** A call `M(name, cb)` that passes only a callback gets every default. */
  lemma CallbackOnlyQueueArgs(f: Value)
    requires IsFunction(f)
    ensures ResolveQueueArgs(QueueArgs(f, Undefined, Undefined, Undefined, Undefined, Undefined))
            == (DefaultQueueParams(), Handler(f))
  {
  }

  lemma CallbackOnlyTopicArgs(f: Value)
    requires IsFunction(f)
    ensures ResolveTopicArgs(TopicArgs(f, Undefined, Undefined)) == (DefaultTopicParams(), Handler(f))
  {
  }

  /** A function in any later position is not recognised as the callback: it
      is forwarded as a creation parameter and the default callback is used. */
  lemma LateCallbackIsAParameter(heap: Value, f: Value)
    requires !IsFunction(heap) && heap != Undefined && IsFunction(f)
    ensures ResolveQueueArgs(QueueArgs(heap, f, Undefined, Undefined, Undefined, Undefined)).1 == Noop
    ensures ResolveQueueArgs(QueueArgs(heap, f, Undefined, Undefined, Undefined, Undefined)).0.pollingWaitSeconds == f
  {
  }

  /** The name field of a resource kind's requests. */
  function NameField(k: Kind): Key {
    match k
    case Queue => Field("queueName")
    case Topic => Field("topicName")
  }

  function ReadAction(k: Kind): string {
    match k
    case Queue => "GetQueueAttributes"
    case Topic => "GetTopicAttributes"
  }

  function CreateAction(k: Kind): string {
    match k
    case Queue => "CreateQueue"
    case Topic => "CreateTopic"
  }

  /** The parameter fields of each kind's "create" request. */
  function ParamFields(k: Kind): set<Key> {
    match k
    case Queue => {Field("maxMsgHeapNum"), Field("pollingWaitSeconds"), Field("visibilityTimeout"),
                   Field("maxMsgSize"), Field("msgRetentionSeconds")}
    case Topic => {Field("maxMsgSize"), Field("filterType")}
  }

  /** The creation parameters the service reads out of a request body. */
  function ParamsIn(b: Body, k: Kind): (p: CreationParams)
    ensures p.KindOf() == k
  {
    match k
    case Queue =>
      QueueParams(Get(b, Field("maxMsgHeapNum")), Get(b, Field("pollingWaitSeconds")),
                  Get(b, Field("visibilityTimeout")), Get(b, Field("maxMsgSize")),
                  Get(b, Field("msgRetentionSeconds")))
    case Topic =>
      TopicParams(Get(b, Field("maxMsgSize")), Get(b, Field("filterType")))
  }

  /** The "get attributes" request for a resource: the kind's action and the
      name, nothing else. */
  function ReadBody(k: Kind, name: Value): (b: Body)
    ensures b.Keys == {Field("Action"), NameField(k)}
    ensures b[Field("Action")] == Str(ReadAction(k)) && b[NameField(k)] == name
  {
    map[Field("Action") := Str(ReadAction(k)), NameField(k) := name]
  }

  /** The "create" request for a resource: the kind's action, the name and
      every creation parameter, which the service reads back unchanged. */
  function CreateBody(name: Value, p: CreationParams): (b: Body)
    ensures b.Keys == {Field("Action"), NameField(p.KindOf())} + ParamFields(p.KindOf())
    ensures b[Field("Action")] == Str(CreateAction(p.KindOf()))
    ensures b[NameField(p.KindOf())] == name
    ensures ParamsIn(b, p.KindOf()) == p
  {
    match p
    case QueueParams(heap, poll, vis, size, ret) =>
      map[Field("Action") := Str("CreateQueue"), Field("queueName") := name,
          Field("maxMsgHeapNum") := heap, Field("pollingWaitSeconds") := poll,
          Field("visibilityTimeout") := vis, Field("maxMsgSize") := size,
          Field("msgRetentionSeconds") := ret]
    case TopicParams(size, filter) =>
      map[Field("Action") := Str("CreateTopic"), Field("topicName") := name,
          Field("maxMsgSize") := size, Field("filterType") := filter]
  }

  /** A request the client hands to the signing client, with the callback
      that will receive its `(error, data)` reply. */
  datatype Request = Request(body: Body, callback: Callback)

  /** `CreateQueue(queueName, ...)`: one "create" request. */
  function CreateQueue(name: Value, a: QueueArgs): (r: Request)
    ensures r.callback == ResolveQueueArgs(a).1
    ensures r.body.Keys == {Field("Action"), Field("queueName"), Field("maxMsgHeapNum"), Field("pollingWaitSeconds"),
                            Field("visibilityTimeout"), Field("maxMsgSize"), Field("msgRetentionSeconds")}
    ensures Get(r.body, Field("Action")) == Str("CreateQueue") && Get(r.body, Field("queueName")) == name
    ensures ParamsIn(r.body, Queue) == ResolveQueueArgs(a).0
  {
    var (p, next) := ResolveQueueArgs(a);
    Request(CreateBody(name, p), next)
  }

  /** `CreateTopic(topicName, ...)`: one "create" request. */
  function CreateTopic(name: Value, a: TopicArgs): (r: Request)
    ensures r.callback == ResolveTopicArgs(a).1
    ensures r.body.Keys == {Field("Action"), Field("topicName"), Field("maxMsgSize"), Field("filterType")}
    ensures Get(r.body, Field("Action")) == Str("CreateTopic") && Get(r.body, Field("topicName")) == name
    ensures ParamsIn(r.body, Topic) == ResolveTopicArgs(a).0
  {
    var (p, next) := ResolveTopicArgs(a);
    Request(CreateBody(name, p), next)
  }
}
