/**
  The request bodies of the message and subscription methods that do more
  than copy their arguments: the batch methods' indexed entries, the
  publish methods' tags and routing key, and the subscription filters.
 */
module Messages {
  import opened Js
  import opened Resources

  /** A method call's effect: the request it hands to the signing client, or
      the TypeError it throws before issuing one. */
  datatype Call = Sent(request: Request) | ThrowsTypeError

  const MaxPublishTags := 5
  const DefaultNotifyStrategy := "EXPONENTIAL_DECAY_RETRY"
  const DefaultNotifyContentFormat := "JSON"

  /** Reading `v.length` throws on `undefined` and `null`. */
  predicate Nullish(v: Value) {
    v.Undefined? || v.Null?
  }

  /** `v[0]`, ..., `v[v.length - 1]` for a value whose `length` can be read:
      an array's elements, a string's characters, `undefined` for each of a
      function's declared parameters, and nothing for a number (whose
      `length` is `undefined`, so a loop bounded by it never runs). */
  function Indexable(v: Value): (xs: seq<Value>)
    requires !Nullish(v)
    ensures v.Array? || v.Str? ==> xs == Enumerated(v)
    ensures v.Func? ==> |xs| == v.arity && forall i :: 0 <= i < |xs| ==> xs[i] == Undefined
    ensures v.Num? ==> xs == []
  {
    match v
    case Array(items) => items
    case Str(_) => Enumerated(v)
    case Func(_, arity) => seq(arity, _ => Undefined)
    case Num(_) => []
  }

  /** The property name `v` stands for when used as `qBody[v]`: its string
      form, or `Coerced(v)` when that form is the source text of a function. */
  function PropertyKey(v: Value): (k: Key)
    ensures v.Str? ==> k == Field(v.s)
    ensures ToText(v).Known? ==> k == Field(ToText(v).text)
    ensures ToText(v).Unknown? ==> k == Coerced(v)
    ensures !k.Indexed?
  {
    match ToText(v)
    case Known(t) => Field(t)
    case Unknown => Coerced(v)
  }

  /** The queue batch methods: the action, the queue name, and one
      `prefix.i` entry per element `for..in` visits. */
  function IndexedBatch(action: string, prefix: string, queueName: Value, list: Value, next: Value): (r: Request)
    ensures r.callback == CallbackFrom(next)
    ensures r.body.Keys == {Field("Action"), Field("queueName")} + IndexedKeys(prefix, |Enumerated(list)|)
    ensures r.body[Field("Action")] == Str(action) && r.body[Field("queueName")] == queueName
    ensures forall i :: 0 <= i < |Enumerated(list)| ==> r.body[Indexed(prefix, i)] == Enumerated(list)[i]
    ensures Unpack(r.body, prefix) == Enumerated(list)
  {
    var fields := map[Field("Action") := Str(action), Field("queueName") := queueName];
    Request(WithList(fields, prefix, Enumerated(list)), CallbackFrom(next))
  }

  /** `BatchSendMessage(queueName, msgBodys, next)`. */
  function BatchSendMessage(queueName: Value, msgBodys: Value, next: Value): Request {
    IndexedBatch("BatchSendMessage", "msgBody", queueName, msgBodys, next)
  }

  /** `BatchDeleteMessage(queueName, receiptHandles, next)`. */
  function BatchDeleteMessage(queueName: Value, receiptHandles: Value, next: Value): Request {
    IndexedBatch("BatchDeleteMessage", "receiptHandle", queueName, receiptHandles, next)
  }

  /** The publish methods' argument shift: a function in the `msgTag`
      position is the callback, and then there are no tags and the routing
      key is the empty string. Returns (msgTag, routingKey, callback). */
  function ShiftPublishArgs(msgTag: Value, routingKey: Value, next: Value): (r: (Value, Value, Callback))
  {
    if IsFunction(msgTag) then (Array([]), Str(""), Handler(msgTag))
    else (msgTag, routingKey, CallbackFrom(next))
  }

  /** The guard `routingKey.length > 0` (for a routing key that is not
      `undefined` or `null`). */
  predicate RoutingKeyNonEmpty(routingKey: Value)
    requires !Nullish(routingKey)
  {
    |Indexable(routingKey)| > 0
  }

  /** After the shift, the publish methods write the routing key: it was not
      replaced by the shift, and its `length` is positive. */
  predicate WritesRoutingKey(msgTag: Value, routingKey: Value) {
    !IsFunction(msgTag) && !Nullish(routingKey) && RoutingKeyNonEmpty(routingKey)
  }

  /** The property the routing key is written to as written, if it is. */
  function RoutingKeyProperty(msgTag: Value, routingKey: Value): set<Key> {
    if WritesRoutingKey(msgTag, routingKey) then {PropertyKey(routingKey)} else {}
  }

  /** The routing key as written overwrites the named field `k`. */
  predicate Overwrites(msgTag: Value, routingKey: Value, k: Key) {
    WritesRoutingKey(msgTag, routingKey) && PropertyKey(routingKey) == k
  }

  /** `if (routingKey.length > 0) qBody[routingKey] = routingKey`, as
      written: the routing key is both the property name and its value, so it
      can replace any named field, and the field `routingKey` is set only
      when that is the name the routing key stands for. */
  function AddRoutingKey(base: Body, routingKey: Value): (b: Body)
    requires !Nullish(routingKey)
    ensures b.Keys == if RoutingKeyNonEmpty(routingKey) then base.Keys + {PropertyKey(routingKey)} else base.Keys
    ensures RoutingKeyNonEmpty(routingKey) ==> b[PropertyKey(routingKey)] == routingKey
    ensures forall k :: k in base && k != PropertyKey(routingKey) ==> b[k] == base[k]
    ensures NoIndexedKeys(base) ==> NoIndexedKeys(b)
  {
    if RoutingKeyNonEmpty(routingKey) then base[PropertyKey(routingKey) := routingKey] else base
  }

  /** The tags `PublishMessage` sends: at most the first five. */
  function PublishTags(msgTag: Value): (tags: seq<Value>)
    requires !Nullish(msgTag)
    ensures |tags| == if |Indexable(msgTag)| < MaxPublishTags then |Indexable(msgTag)| else MaxPublishTags
    ensures tags <= Indexable(msgTag)
  {
    var all := Indexable(msgTag);
    if |all| < MaxPublishTags then all else all[..MaxPublishTags]
  }

  /** How many tags `PublishMessage` sends, after the shift. */
  function TagCount(msgTag: Value): (n: nat)
    requires !Nullish(msgTag)
    ensures n <= MaxPublishTags
    ensures !IsFunction(msgTag) ==> n <= |Indexable(msgTag)|
  {
    if IsFunction(msgTag) then 0
    else if |Indexable(msgTag)| < MaxPublishTags then |Indexable(msgTag)| else MaxPublishTags
  }

  /** The named fields of a `PublishMessage` request. */
  function PublishFields(): set<Key> {
    {Field("Action"), Field("topicName"), Field("msgBody")}
  }

  /** `PublishMessage(topicName, msgBody, msgTag, routingKey, next)`, as
      written. */
  function PublishMessage(topicName: Value, msgBody: Value, msgTag: Value, routingKey: Value, next: Value): (c: Call)
    // it throws exactly when `routingKey` or `msgTag` is undefined or null after the shift
    ensures c.ThrowsTypeError? <==> !IsFunction(msgTag) && (Nullish(routingKey) || Nullish(msgTag))
    // a function in the `msgTag` position is the callback
    ensures c.Sent? && IsFunction(msgTag) ==> c.request.callback == Handler(msgTag)
    ensures c.Sent? && !IsFunction(msgTag) ==> c.request.callback == CallbackFrom(next)
    // exactly the named fields, the routing key's property and the tags
    ensures c.Sent? ==>
              c.request.body.Keys == PublishFields() + RoutingKeyProperty(msgTag, routingKey)
                                     + IndexedKeys("msgTag", TagCount(msgTag))
    // the named fields keep their values unless the routing key names them ...
    ensures c.Sent? && !Overwrites(msgTag, routingKey, Field("Action")) ==>
              Get(c.request.body, Field("Action")) == Str("PublishMessage")
    ensures c.Sent? && !Overwrites(msgTag, routingKey, Field("topicName")) ==>
              Get(c.request.body, Field("topicName")) == topicName
    ensures c.Sent? && !Overwrites(msgTag, routingKey, Field("msgBody")) ==>
              Get(c.request.body, Field("msgBody")) == msgBody
    // ... which holds the routing key itself
    ensures c.Sent? && WritesRoutingKey(msgTag, routingKey) ==>
              Get(c.request.body, PropertyKey(routingKey)) == routingKey
    // the tags: the first min(5, msgTag.length) of them, in order
    ensures c.Sent? ==>
              forall i :: 0 <= i < TagCount(msgTag) ==> Get(c.request.body, Indexed("msgTag", i)) == Indexable(msgTag)[i]
    ensures c.Sent? ==> |Unpack(c.request.body, "msgTag")| == TagCount(msgTag)
    ensures c.Sent? && !IsFunction(msgTag) ==> Unpack(c.request.body, "msgTag") <= Indexable(msgTag)
    // the field `routingKey` is present only when the routing key stands for that name
    ensures c.Sent? ==> (Field("routingKey") in c.request.body <==> Overwrites(msgTag, routingKey, Field("routingKey")))
  {
    var (tags, key, callback) := ShiftPublishArgs(msgTag, routingKey, next);
    if Nullish(key) || Nullish(tags) then ThrowsTypeError
    else
      assert |PublishTags(tags)| == TagCount(msgTag);
      Sent(Request(PublishBody(topicName, msgBody, tags, key), callback))
  }

  /** The body `PublishMessage` sends, after the shift. */
  function PublishBody(topicName: Value, msgBody: Value, tags: Value, key: Value): (b: Body)
    requires !Nullish(key) && !Nullish(tags)
    ensures b.Keys == PublishFields() + (if RoutingKeyNonEmpty(key) then {PropertyKey(key)} else {})
                      + IndexedKeys("msgTag", |PublishTags(tags)|)
    ensures !(RoutingKeyNonEmpty(key) && PropertyKey(key) == Field("Action")) ==>
              Get(b, Field("Action")) == Str("PublishMessage")
    ensures !(RoutingKeyNonEmpty(key) && PropertyKey(key) == Field("topicName")) ==> Get(b, Field("topicName")) == topicName
    ensures !(RoutingKeyNonEmpty(key) && PropertyKey(key) == Field("msgBody")) ==> Get(b, Field("msgBody")) == msgBody
    ensures RoutingKeyNonEmpty(key) ==> Get(b, PropertyKey(key)) == key
    ensures forall i :: 0 <= i < |PublishTags(tags)| ==> Get(b, Indexed("msgTag", i)) == PublishTags(tags)[i]
    ensures Unpack(b, "msgTag") == PublishTags(tags)
    ensures Field("routingKey") in b <==> RoutingKeyNonEmpty(key) && PropertyKey(key) == Field("routingKey")
  {
    var base := map[Field("Action") := Str("PublishMessage"), Field("topicName") := topicName,
                    Field("msgBody") := msgBody];
    assert base.Keys == PublishFields() && Field("routingKey") !in base;
    var fields := AddRoutingKey(base, key);
    WithList(fields, "msgTag", PublishTags(tags))
  }

  /** The named fields of a `BatchPublishMessage` request. */
  function BatchPublishFields(): set<Key> {
    {Field("Action"), Field("topicName")}
  }

  /** `BatchPublishMessage(topicName, msgBodys, msgTag, routingKey, next)`, as
      written: no tag limit, and the tags are enumerated, so undefined tags
      are no error here. */
  function BatchPublishMessage(topicName: Value, msgBodys: Value, msgTag: Value, routingKey: Value, next: Value): (c: Call)
    ensures c.ThrowsTypeError? <==> !IsFunction(msgTag) && Nullish(routingKey)
    ensures c.Sent? && IsFunction(msgTag) ==> c.request.callback == Handler(msgTag)
    ensures c.Sent? && !IsFunction(msgTag) ==> c.request.callback == CallbackFrom(next)
    // exactly the named fields, the routing key's property and the two lists
    ensures c.Sent? ==>
              c.request.body.Keys == BatchPublishFields() + RoutingKeyProperty(msgTag, routingKey)
                                     + IndexedKeys("msgBody", |Enumerated(msgBodys)|)
                                     + IndexedKeys("msgTag", |Enumerated(msgTag)|)
    ensures c.Sent? && !Overwrites(msgTag, routingKey, Field("Action")) ==>
              Get(c.request.body, Field("Action")) == Str("BatchPublishMessage")
    ensures c.Sent? && !Overwrites(msgTag, routingKey, Field("topicName")) ==>
              Get(c.request.body, Field("topicName")) == topicName
    ensures c.Sent? && WritesRoutingKey(msgTag, routingKey) ==>
              Get(c.request.body, PropertyKey(routingKey)) == routingKey
    ensures c.Sent? ==> Unpack(c.request.body, "msgBody") == Enumerated(msgBodys)
    ensures c.Sent? ==> Unpack(c.request.body, "msgTag") == if IsFunction(msgTag) then [] else Enumerated(msgTag)
    ensures c.Sent? ==> (Field("routingKey") in c.request.body <==> Overwrites(msgTag, routingKey, Field("routingKey")))
  {
    var (tags, key, callback) := ShiftPublishArgs(msgTag, routingKey, next);
    if Nullish(key) then ThrowsTypeError
    else
      var base := map[Field("Action") := Str("BatchPublishMessage"), Field("topicName") := topicName];
      assert base.Keys == BatchPublishFields() && Field("routingKey") !in base;
      var fields := AddRoutingKey(base, key);
      assert fields.Keys == BatchPublishFields() + RoutingKeyProperty(msgTag, routingKey);
      assert |Enumerated(tags)| == |Enumerated(msgTag)|;
      Sent(Request(WithTwoLists(fields, "msgBody", Enumerated(msgBodys), "msgTag", Enumerated(tags)), callback))
  }

  /** The named fields of a `Subscribe` request, after the shift. */
  function SubscribeFields(topicName: Value, subscriptionName: Value, protocol: Value, endpoint: Value,
                           strategy: Value, format: Value): (b: Body)
    ensures b.Keys == {Field("Action"), Field("topicName"), Field("subscriptionName"), Field("protocol"),
                       Field("endpoint"), Field("notifyStrategy"), Field("notifyContentFormat")}
    ensures NoIndexedKeys(b)
    ensures Get(b, Field("Action")) == Str("Subscribe")
    ensures Get(b, Field("topicName")) == topicName && Get(b, Field("subscriptionName")) == subscriptionName
    ensures Get(b, Field("protocol")) == protocol && Get(b, Field("endpoint")) == endpoint
    ensures Get(b, Field("notifyStrategy")) == strategy && Get(b, Field("notifyContentFormat")) == format
  {
    map[Field("Action") := Str("Subscribe"), Field("topicName") := topicName,
        Field("subscriptionName") := subscriptionName, Field("protocol") := protocol,
        Field("endpoint") := endpoint, Field("notifyStrategy") := strategy,
        Field("notifyContentFormat") := format]
  }

  /** `Subscribe(topicName, subscriptionName, protocol, endpoint,
      notifyStrategy, notifyContentFormat, filterTags, bindingKeys, next)`. */
  function Subscribe(topicName: Value, subscriptionName: Value, protocol: Value, endpoint: Value,
                     notifyStrategy: Value, notifyContentFormat: Value, filterTags: Value, bindingKeys: Value,
                     next: Value): (r: Request)
    // a function in the `notifyStrategy` position is the callback
    ensures IsFunction(notifyStrategy) ==> r.callback == Handler(notifyStrategy)
    ensures !IsFunction(notifyStrategy) ==> r.callback == CallbackFrom(next)
    ensures Get(r.body, Field("notifyStrategy")) ==
              if IsFunction(notifyStrategy) then Str(DefaultNotifyStrategy)
              else Default(notifyStrategy, Str(DefaultNotifyStrategy))
    ensures Get(r.body, Field("notifyContentFormat")) == Default(notifyContentFormat, Str(DefaultNotifyContentFormat))
    ensures Get(r.body, Field("Action")) == Str("Subscribe")
    ensures Get(r.body, Field("topicName")) == topicName && Get(r.body, Field("subscriptionName")) == subscriptionName
    ensures Get(r.body, Field("protocol")) == protocol && Get(r.body, Field("endpoint")) == endpoint
    // no other fields than these, and one entry per filter tag and binding key
    ensures r.body.Keys == {Field("Action"), Field("topicName"), Field("subscriptionName"), Field("protocol"),
                            Field("endpoint"), Field("notifyStrategy"), Field("notifyContentFormat")}
                           + IndexedKeys("filterTag", |Enumerated(filterTags)|)
                           + IndexedKeys("bindingKey", |Enumerated(bindingKeys)|)
    ensures Unpack(r.body, "filterTag") == Enumerated(filterTags)
    ensures Unpack(r.body, "bindingKey") == Enumerated(bindingKeys)
  {
    var strategy := Default(notifyStrategy, Str(DefaultNotifyStrategy));
    var (strategy', callback) :=
      if IsFunction(strategy) then (Str(DefaultNotifyStrategy), Handler(strategy)) else (strategy, CallbackFrom(next));
    var format := Default(notifyContentFormat, Str(DefaultNotifyContentFormat));
    var fields := SubscribeFields(topicName, subscriptionName, protocol, endpoint, strategy', format);
    Request(WithTwoLists(fields, "filterTag", Enumerated(filterTags), "bindingKey", Enumerated(bindingKeys)), callback)
  }

  /** A routing key that names one of the fields written before it replaces
      that field: here the message body is lost. */
  lemma RoutingKeyCanReplaceMessageBody()
    ensures var c := PublishMessage(Str("t"), Str("hello"), Array([]), Str("msgBody"), Undefined);
            c.Sent? && c.request.body[Field("msgBody")] == Str("msgBody")
  {
  }

  /** The example key `"order.paid"` is stored under its own name, and no
      `routingKey` field is sent. `PublishMessage`'s last ensures is the
      general statement. */
  lemma RoutingKeyFieldMissing()
    ensures var c := PublishMessage(Str("t"), Str("hello"), Array([]), Str("order.paid"), Undefined);
            c.Sent? && Field("routingKey") !in c.request.body && c.request.body[Field("order.paid")] == Str("order.paid")
  {
  }

  /** An array routing key stands for its elements joined by commas: the
      array `["msgBody"]` replaces the message body too. */
  lemma ArrayRoutingKeyReplacesMessageBody()
    ensures var key := Array([Str("msgBody")]);
            var c := PublishMessage(Str("t"), Str("hello"), Array([]), key, Undefined);
            c.Sent? && Get(c.request.body, Field("msgBody")) == key
  {
    ShortArrayTexts("msgBody", "");
  }

  /** The array `["routingKey"]` stands for the name `routingKey`, so even the
      code as written sends it under that field. */
  lemma ArrayRoutingKeySetsRoutingKeyField()
    ensures var key := Array([Str("routingKey")]);
            var c := PublishMessage(Str("t"), Str("hello"), Array([]), key, Undefined);
            c.Sent? && Get(c.request.body, Field("routingKey")) == key
  {
    var key := Array([Str("routingKey")]);
    ShortArrayTexts("routingKey", "");
    assert PropertyKey(key) == Field("routingKey");
    assert WritesRoutingKey(Array([]), key);
    var c := PublishMessage(Str("t"), Str("hello"), Array([]), key, Undefined);
    assert c.Sent?;
    assert Get(c.request.body, Field("routingKey")) == key;
  }

  /** `if (routingKey.length > 0) qBody.routingKey = routingKey`: the routing
      key under the field the service reads it from. */
  function AddRoutingKeyField(base: Body, routingKey: Value): (b: Body)
    requires !Nullish(routingKey)
    ensures b.Keys == if RoutingKeyNonEmpty(routingKey) then base.Keys + {Field("routingKey")} else base.Keys
    ensures RoutingKeyNonEmpty(routingKey) ==> b[Field("routingKey")] == routingKey
    ensures forall k :: k in base && k != Field("routingKey") ==> b[k] == base[k]
    ensures NoIndexedKeys(base) ==> NoIndexedKeys(b)
  {
    if RoutingKeyNonEmpty(routingKey) then base[Field("routingKey") := routingKey] else base
  }

  /** The field `routingKey`, when the corrected publish methods write it. */
  function RoutingKeyField(msgTag: Value, routingKey: Value): set<Key> {
    if WritesRoutingKey(msgTag, routingKey) then {Field("routingKey")} else {}
  }

  /** `PublishMessage` with the routing key sent as the field `routingKey`:
      the named fields always keep the caller's values. */
  function PublishMessageIntended(topicName: Value, msgBody: Value, msgTag: Value, routingKey: Value, next: Value): (c: Call)
    ensures c.ThrowsTypeError? <==> !IsFunction(msgTag) && (Nullish(routingKey) || Nullish(msgTag))
    ensures c.Sent? && IsFunction(msgTag) ==> c.request.callback == Handler(msgTag)
    ensures c.Sent? && !IsFunction(msgTag) ==> c.request.callback == CallbackFrom(next)
    ensures c.Sent? ==>
              c.request.body.Keys == PublishFields() + RoutingKeyField(msgTag, routingKey)
                                     + IndexedKeys("msgTag", TagCount(msgTag))
    ensures c.Sent? ==>
              && Get(c.request.body, Field("Action")) == Str("PublishMessage")
              && Get(c.request.body, Field("topicName")) == topicName
              && Get(c.request.body, Field("msgBody")) == msgBody
    ensures c.Sent? && WritesRoutingKey(msgTag, routingKey) ==>
              Get(c.request.body, Field("routingKey")) == routingKey
    ensures c.Sent? && !WritesRoutingKey(msgTag, routingKey) ==>
              Field("routingKey") !in c.request.body
    ensures c.Sent? ==>
              forall i :: 0 <= i < TagCount(msgTag) ==> Get(c.request.body, Indexed("msgTag", i)) == Indexable(msgTag)[i]
    ensures c.Sent? ==> |Unpack(c.request.body, "msgTag")| == TagCount(msgTag)
    ensures c.Sent? && !IsFunction(msgTag) ==> Unpack(c.request.body, "msgTag") <= Indexable(msgTag)
  {
    var (tags, key, callback) := ShiftPublishArgs(msgTag, routingKey, next);
    if Nullish(key) || Nullish(tags) then ThrowsTypeError
    else
      var base := map[Field("Action") := Str("PublishMessage"), Field("topicName") := topicName,
                      Field("msgBody") := msgBody];
      assert Get(base, Field("Action")) == Str("PublishMessage") && Get(base, Field("topicName")) == topicName
          && Get(base, Field("msgBody")) == msgBody && Field("routingKey") !in base;
      assert base.Keys == PublishFields();
      var fields := AddRoutingKeyField(base, key);
      assert fields.Keys == PublishFields() + RoutingKeyField(msgTag, routingKey);
      var list := PublishTags(tags);
      assert |list| == TagCount(msgTag);
      Sent(Request(WithList(fields, "msgTag", list), callback))
  }

  /** `BatchPublishMessage` with the routing key sent as the field
      `routingKey`. */
  function BatchPublishMessageIntended(topicName: Value, msgBodys: Value, msgTag: Value, routingKey: Value, next: Value): (c: Call)
    ensures c.ThrowsTypeError? <==> !IsFunction(msgTag) && Nullish(routingKey)
    ensures c.Sent? && IsFunction(msgTag) ==> c.request.callback == Handler(msgTag)
    ensures c.Sent? && !IsFunction(msgTag) ==> c.request.callback == CallbackFrom(next)
    ensures c.Sent? ==>
              c.request.body.Keys == (if WritesRoutingKey(msgTag, routingKey) then BatchPublishFields() + {Field("routingKey")}
                                      else BatchPublishFields())
                                     + IndexedKeys("msgBody", |Enumerated(msgBodys)|)
                                     + IndexedKeys("msgTag", |Enumerated(msgTag)|)
    ensures c.Sent? ==>
              && Get(c.request.body, Field("Action")) == Str("BatchPublishMessage")
              && Get(c.request.body, Field("topicName")) == topicName
    ensures c.Sent? ==> Unpack(c.request.body, "msgBody") == Enumerated(msgBodys)
    ensures c.Sent? ==> Unpack(c.request.body, "msgTag") == if IsFunction(msgTag) then [] else Enumerated(msgTag)
    ensures c.Sent? && WritesRoutingKey(msgTag, routingKey) ==>
              Get(c.request.body, Field("routingKey")) == routingKey
    ensures c.Sent? && !WritesRoutingKey(msgTag, routingKey) ==>
              Field("routingKey") !in c.request.body
  {
    var (tags, key, callback) := ShiftPublishArgs(msgTag, routingKey, next);
    if Nullish(key) then ThrowsTypeError
    else
      assert |Enumerated(tags)| == |Enumerated(msgTag)|;
      assert WritesRoutingKey(msgTag, routingKey) == RoutingKeyNonEmpty(key);
      Sent(Request(BatchPublishBodyIntended(topicName, msgBodys, tags, key), callback))
  }

  /** The named fields of a `BatchPublishMessage` body, before the routing key. */
  function BatchPublishBase(topicName: Value): (m: Body)
    ensures m.Keys == BatchPublishFields() && NoIndexedKeys(m)
    ensures m[Field("Action")] == Str("BatchPublishMessage") && m[Field("topicName")] == topicName
  {
    map[Field("Action") := Str("BatchPublishMessage"), Field("topicName") := topicName]
  }

  /** The body `BatchPublishMessageIntended` sends, after the shift. */
  function BatchPublishBodyIntended(topicName: Value, msgBodys: Value, tags: Value, key: Value): (b: Body)
    requires !Nullish(key)
    ensures b.Keys == (if RoutingKeyNonEmpty(key) then BatchPublishFields() + {Field("routingKey")} else BatchPublishFields())
                      + IndexedKeys("msgBody", |Enumerated(msgBodys)|) + IndexedKeys("msgTag", |Enumerated(tags)|)
    ensures Get(b, Field("Action")) == Str("BatchPublishMessage") && Get(b, Field("topicName")) == topicName
    ensures Unpack(b, "msgBody") == Enumerated(msgBodys) && Unpack(b, "msgTag") == Enumerated(tags)
    ensures RoutingKeyNonEmpty(key) ==> Get(b, Field("routingKey")) == key
    ensures !RoutingKeyNonEmpty(key) ==> Field("routingKey") !in b
  {
    var fields := AddRoutingKeyField(BatchPublishBase(topicName), key);
    WithTwoLists(fields, "msgBody", Enumerated(msgBodys), "msgTag", Enumerated(tags))
  }
}
