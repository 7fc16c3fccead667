/**
 * MessagingProvider: the factory for Service Bus receivers, senders and client entities, with
 * one process-lifetime cache per kind. Every cache is keyed by `entityPath + "-" + connectionString`
 * and only ever gains entries: a key that is present keeps the client stored first.
 *
 * The Azure SDK clients are opaque records of the arguments they were constructed with.
 */
module Messaging {
  import opened Wrappers
  import opened EntityPath

  /** MessageHandlerOptions / SessionHandlerOptions, passed through unread. */
  datatype HandlerOptions = HandlerOptions(id: nat)

  /** The part of ServiceBusOptions this core reads. */
  datatype ServiceBusOptions = ServiceBusOptions(
    prefetchCount: nat,
    messageHandlerOptions: HandlerOptions,
    sessionHandlerOptions: HandlerOptions)

  /** `IOptions<ServiceBusOptions>`, whose `Value` may be null. */
  datatype OptionsWrapper = OptionsWrapper(value: Option<ServiceBusOptions>)

  datatype MessageReceiver = MessageReceiver(connectionString: string, entityPath: string, prefetchCount: nat)

  /** A sender is created without a prefetch setting. */
  datatype MessageSender = MessageSender(connectionString: string, entityPath: string)

  datatype ClientEntity =
    | QueueClient(connectionString: string, entityPath: string, prefetchCount: nat)
    | SubscriptionClient(connectionString: string, topicPath: string, subscriptionName: string, prefetchCount: nat)

  datatype MessageProcessor = MessageProcessor(receiver: MessageReceiver, handlerOptions: HandlerOptions)

  datatype SessionMessageProcessor = SessionMessageProcessor(clientEntity: ClientEntity, sessionHandlerOptions: HandlerOptions)

  /** The cache key: plain concatenation around a dash. */
  function CacheKey(entityPath: string, connectionString: string): string
  {
    entityPath + "-" + connectionString
  }

  /** Concatenation is ambiguous: two different (path, connection) pairs can share a key. */
  lemma CacheKeyCollision()
    ensures ("a-b", "c") != ("a", "b-c")
    ensures CacheKey("a-b", "c") == CacheKey("a", "b-c")
  {
  }

  /** Where neither path holds a dash, the key determines both the path and the connection. */
  lemma CacheKeyInjective(p1: string, c1: string, p2: string, c2: string)
    requires '-' !in p1 && '-' !in p2
    requires CacheKey(p1, c1) == CacheKey(p2, c2)
    ensures p1 == p2 && c1 == c2
  {
    var key := CacheKey(p1, c1);
    DashInLongerPath(p1, c1, p2, c2);
    DashInLongerPath(p2, c2, p1, c1);
    assert p1 == key[..|p1|] == p2;
    assert c1 == key[|p1| + 1..] == c2;
  }

  /** Of two paths under one key, the longer one holds the dash that ends the shorter one. */
  lemma DashInLongerPath(p1: string, c1: string, p2: string, c2: string)
    requires CacheKey(p1, c1) == CacheKey(p2, c2)
    ensures |p1| < |p2| ==> '-' in p2
  {
    if |p1| < |p2| {
      var key := CacheKey(p1, c1);
      assert key[|p1|] == '-';
      assert key[|p1|] == p2[|p1|];
    }
  }

  /**
   * `ConcurrentDictionary.GetOrAdd(key, value)` run sequentially: the new cache and the value
   * returned. An existing entry is returned and never replaced; otherwise the candidate is stored.
   */
  function GetOrAdd<V>(cache: map<string, V>, key: string, candidate: V): (r: (map<string, V>, V))
    ensures key in r.0 && r.1 == r.0[key]
    ensures r.0.Keys == cache.Keys + {key}
    ensures forall k :: k in cache ==> r.0[k] == cache[k]
    ensures key !in cache ==> r.1 == candidate
  {
    if key in cache then (cache, cache[key]) else (cache[key := candidate], candidate)
  }

  /** A second GetOrAdd with the same key returns what the first returned and changes nothing. */
  lemma GetOrAddTwice<V>(cache: map<string, V>, key: string, first: V, second: V)
    ensures var (c1, v1) := GetOrAdd(cache, key, first);
            GetOrAdd(c1, key, second) == (c1, v1)
  {
  }

  /**
   * The argument checks at the head of every public Create* method: a null or empty entity path
   * is reported first, then a null or empty connection string.
   */
  function ValidateArguments(entityPath: Option<string>, connectionString: Option<string>): (r: Option<Exception>)
    ensures r == Some(ArgumentNull("entityPath")) <==> IsNullOrEmpty(entityPath)
    ensures r == Some(ArgumentNull("connectionString")) <==>
              !IsNullOrEmpty(entityPath) && IsNullOrEmpty(connectionString)
    ensures r.None? <==> !IsNullOrEmpty(entityPath) && !IsNullOrEmpty(connectionString)
  {
    if IsNullOrEmpty(entityPath) then Some(ArgumentNull("entityPath"))
    else if IsNullOrEmpty(connectionString) then Some(ArgumentNull("connectionString"))
    else None
  }

  /** The entity path a client entity addresses. */
  function ClientEntityPath(e: ClientEntity): string
  {
    match e
    case QueueClient(_, path, _) => path
    case SubscriptionClient(_, topic, subscription, _) => topic + SubscriptionsMarker + subscription
  }

  /**
   * The client entity built for a path: a subscription client when the path splits on the
   * marker into exactly two segments, a queue client on the whole path otherwise; either one
   * stamped with the prefetch count.
   */
  function NewClientEntity(connectionString: string, entityPath: string, prefetchCount: nat): (e: ClientEntity)
    ensures ClientEntityPath(e) == entityPath
    ensures e.connectionString == connectionString && e.prefetchCount == prefetchCount
    ensures e.SubscriptionClient? <==> |Split(entityPath, SubscriptionsMarker)| == 2
    ensures e.SubscriptionClient? ==>
              Split(entityPath, SubscriptionsMarker) == [e.topicPath, e.subscriptionName]
  {
    match ParseEntityPath(entityPath)
    case Queue(path) => QueueClient(connectionString, path, prefetchCount)
    case Subscription(topic, subscription) =>
      SubscriptionClient(connectionString, topic, subscription, prefetchCount)
  }

  class MessagingProvider {
    const options: ServiceBusOptions
    var messageReceiverCache: map<string, MessageReceiver>
    var messageSenderCache: map<string, MessageSender>
    var clientEntityCache: map<string, ClientEntity>

    /**
     * Every cached client sits under the key of the path and connection it was built for, and
     * every receiver and client entity carries the configured prefetch count.
     */
    ghost predicate Valid()
      reads this
    {
      && (forall k | k in messageReceiverCache ::
            var r := messageReceiverCache[k];
            k == CacheKey(r.entityPath, r.connectionString) && r.prefetchCount == options.prefetchCount)
      && (forall k | k in messageSenderCache ::
            var s := messageSenderCache[k];
            k == CacheKey(s.entityPath, s.connectionString))
      && (forall k | k in clientEntityCache ::
            var e := clientEntityCache[k];
            && k == CacheKey(ClientEntityPath(e), e.connectionString)
            && e == NewClientEntity(e.connectionString, ClientEntityPath(e), options.prefetchCount))
    }

    constructor (options: ServiceBusOptions)
      ensures Valid() && this.options == options
      ensures messageReceiverCache == map[] && messageSenderCache == map[] && clientEntityCache == map[]
    {
      this.options := options;
      messageReceiverCache := map[];
      messageSenderCache := map[];
      clientEntityCache := map[];
    }

    /** The public constructor: a null options wrapper, or a null `Value` in it, throws. */
    static method Create(serviceBusOptions: Option<OptionsWrapper>) returns (r: Result<MessagingProvider, Exception>)
      ensures r.Failure? <==> serviceBusOptions.None? || serviceBusOptions.value.value.None?
      ensures r.Failure? ==> r.error == ArgumentNull("serviceBusOptions")
      ensures r.Success? ==> && fresh(r.value) && r.value.Valid()
                             && r.value.options == serviceBusOptions.value.value.value
                             && r.value.messageReceiverCache == map[]
                             && r.value.messageSenderCache == map[]
                             && r.value.clientEntityCache == map[]
    {
      if serviceBusOptions.None? || serviceBusOptions.value.value.None? {
        return Failure(ArgumentNull("serviceBusOptions"));
      }
      var provider := new MessagingProvider(serviceBusOptions.value.value.value);
      return Success(provider);
    }

    function NewMessageReceiver(connectionString: string, entityPath: string): MessageReceiver
    {
      MessageReceiver(connectionString, entityPath, options.prefetchCount)
    }

    method GetOrAddMessageReceiver(entityPath: string, connectionString: string) returns (receiver: MessageReceiver)
      requires Valid()
      modifies this
      ensures Valid()
      ensures (messageReceiverCache, receiver) ==
                GetOrAdd(old(messageReceiverCache), CacheKey(entityPath, connectionString),
                         NewMessageReceiver(connectionString, entityPath))
      ensures receiver.prefetchCount == options.prefetchCount
      ensures messageSenderCache == old(messageSenderCache) && clientEntityCache == old(clientEntityCache)
    {
      var cacheKey := CacheKey(entityPath, connectionString);
      var added := GetOrAdd(messageReceiverCache, cacheKey, NewMessageReceiver(connectionString, entityPath));
      messageReceiverCache, receiver := added.0, added.1;
    }

    method GetOrAddMessageSender(entityPath: string, connectionString: string) returns (sender: MessageSender)
      requires Valid()
      modifies this
      ensures Valid()
      ensures (messageSenderCache, sender) ==
                GetOrAdd(old(messageSenderCache), CacheKey(entityPath, connectionString),
                         MessageSender(connectionString, entityPath))
      ensures messageReceiverCache == old(messageReceiverCache) && clientEntityCache == old(clientEntityCache)
    {
      var cacheKey := CacheKey(entityPath, connectionString);
      var added := GetOrAdd(messageSenderCache, cacheKey, MessageSender(connectionString, entityPath));
      messageSenderCache, sender := added.0, added.1;
    }

    method GetOrAddClientEntity(entityPath: string, connectionString: string) returns (entity: ClientEntity)
      requires Valid()
      modifies this
      ensures Valid()
      ensures (clientEntityCache, entity) ==
                GetOrAdd(old(clientEntityCache), CacheKey(entityPath, connectionString),
                         NewClientEntity(connectionString, entityPath, options.prefetchCount))
      ensures entity.prefetchCount == options.prefetchCount
      ensures messageReceiverCache == old(messageReceiverCache) && messageSenderCache == old(messageSenderCache)
    {
      var cacheKey := CacheKey(entityPath, connectionString);
      var arr := Split(entityPath, SubscriptionsMarker);
      var candidate: ClientEntity;
      if |arr| == 2 {
        // entityPath for a subscription is "{TopicName}/Subscriptions/{SubscriptionName}"
        candidate := SubscriptionClient(connectionString, arr[0], arr[1], options.prefetchCount);
      } else {
        candidate := QueueClient(connectionString, entityPath, options.prefetchCount);
      }
      assert candidate == NewClientEntity(connectionString, entityPath, options.prefetchCount);
      var added := GetOrAdd(clientEntityCache, cacheKey, candidate);
      clientEntityCache, entity := added.0, added.1;
    }

    method CreateMessageProcessor(entityPath: Option<string>, connectionString: Option<string>)
      returns (r: Result<MessageProcessor, Exception>)
      requires Valid()
      modifies this
      ensures Valid()
      ensures ValidateArguments(entityPath, connectionString).Some? ==>
                && r == Failure(ValidateArguments(entityPath, connectionString).value)
                && unchanged(this)
      ensures ValidateArguments(entityPath, connectionString).None? ==>
                && r.Success?
                && (messageReceiverCache, r.value.receiver) ==
                     GetOrAdd(old(messageReceiverCache), CacheKey(entityPath.value, connectionString.value),
                              NewMessageReceiver(connectionString.value, entityPath.value))
                && r.value.handlerOptions == options.messageHandlerOptions
                && messageSenderCache == old(messageSenderCache)
                && clientEntityCache == old(clientEntityCache)
    {
      var error := ValidateArguments(entityPath, connectionString);
      if error.Some? {
        return Failure(error.value);
      }
      var receiver := GetOrAddMessageReceiver(entityPath.value, connectionString.value);
      return Success(MessageProcessor(receiver, options.messageHandlerOptions));
    }

    method CreateMessageReceiver(entityPath: Option<string>, connectionString: Option<string>)
      returns (r: Result<MessageReceiver, Exception>)
      requires Valid()
      modifies this
      ensures Valid()
      ensures ValidateArguments(entityPath, connectionString).Some? ==>
                && r == Failure(ValidateArguments(entityPath, connectionString).value)
                && unchanged(this)
      ensures ValidateArguments(entityPath, connectionString).None? ==>
                && r.Success?
                && (messageReceiverCache, r.value) ==
                     GetOrAdd(old(messageReceiverCache), CacheKey(entityPath.value, connectionString.value),
                              NewMessageReceiver(connectionString.value, entityPath.value))
                && messageSenderCache == old(messageSenderCache)
                && clientEntityCache == old(clientEntityCache)
    {
      var error := ValidateArguments(entityPath, connectionString);
      if error.Some? {
        return Failure(error.value);
      }
      var receiver := GetOrAddMessageReceiver(entityPath.value, connectionString.value);
      return Success(receiver);
    }

    method CreateMessageSender(entityPath: Option<string>, connectionString: Option<string>)
      returns (r: Result<MessageSender, Exception>)
      requires Valid()
      modifies this
      ensures Valid()
      ensures ValidateArguments(entityPath, connectionString).Some? ==>
                && r == Failure(ValidateArguments(entityPath, connectionString).value)
                && unchanged(this)
      ensures ValidateArguments(entityPath, connectionString).None? ==>
                && r.Success?
                && (messageSenderCache, r.value) ==
                     GetOrAdd(old(messageSenderCache), CacheKey(entityPath.value, connectionString.value),
                              MessageSender(connectionString.value, entityPath.value))
                && messageReceiverCache == old(messageReceiverCache)
                && clientEntityCache == old(clientEntityCache)
    {
      var error := ValidateArguments(entityPath, connectionString);
      if error.Some? {
        return Failure(error.value);
      }
      var sender := GetOrAddMessageSender(entityPath.value, connectionString.value);
      return Success(sender);
    }

    method CreateClientEntity(entityPath: Option<string>, connectionString: Option<string>)
      returns (r: Result<ClientEntity, Exception>)
      requires Valid()
      modifies this
      ensures Valid()
      ensures ValidateArguments(entityPath, connectionString).Some? ==>
                && r == Failure(ValidateArguments(entityPath, connectionString).value)
                && unchanged(this)
      ensures ValidateArguments(entityPath, connectionString).None? ==>
                && r.Success?
                && (clientEntityCache, r.value) ==
                     GetOrAdd(old(clientEntityCache), CacheKey(entityPath.value, connectionString.value),
                              NewClientEntity(connectionString.value, entityPath.value, options.prefetchCount))
                && messageReceiverCache == old(messageReceiverCache)
                && messageSenderCache == old(messageSenderCache)
    {
      var error := ValidateArguments(entityPath, connectionString);
      if error.Some? {
        return Failure(error.value);
      }
      var entity := GetOrAddClientEntity(entityPath.value, connectionString.value);
      return Success(entity);
    }

    method CreateSessionMessageProcessor(entityPath: Option<string>, connectionString: Option<string>)
      returns (r: Result<SessionMessageProcessor, Exception>)
      requires Valid()
      modifies this
      ensures Valid()
      ensures ValidateArguments(entityPath, connectionString).Some? ==>
                && r == Failure(ValidateArguments(entityPath, connectionString).value)
                && unchanged(this)
      ensures ValidateArguments(entityPath, connectionString).None? ==>
                && r.Success?
                && (clientEntityCache, r.value.clientEntity) ==
                     GetOrAdd(old(clientEntityCache), CacheKey(entityPath.value, connectionString.value),
                              NewClientEntity(connectionString.value, entityPath.value, options.prefetchCount))
                && r.value.sessionHandlerOptions == options.sessionHandlerOptions
                && messageReceiverCache == old(messageReceiverCache)
                && messageSenderCache == old(messageSenderCache)
    {
      var error := ValidateArguments(entityPath, connectionString);
      if error.Some? {
        return Failure(error.value);
      }
      var entity := GetOrAddClientEntity(entityPath.value, connectionString.value);
      return Success(SessionMessageProcessor(entity, options.sessionHandlerOptions));
    }
  }

  /**
   * A message processor and then a receiver asked for with the same arguments share the one
   * cached receiver. Identity is by value here, so sharing means the two records are equal.
   */
  method ProcessorAndReceiverShareReceiver(provider: MessagingProvider, entityPath: string, connectionString: string)
    returns (processor: MessageProcessor, receiver: MessageReceiver)
    requires provider.Valid() && entityPath != "" && connectionString != ""
    modifies provider
    ensures provider.Valid()
    ensures processor.receiver == receiver
    ensures CacheKey(entityPath, connectionString) in provider.messageReceiverCache
    ensures receiver == provider.messageReceiverCache[CacheKey(entityPath, connectionString)]
  {
    var p := provider.CreateMessageProcessor(Some(entityPath), Some(connectionString));
    var r := provider.CreateMessageReceiver(Some(entityPath), Some(connectionString));
    processor, receiver := p.value, r.value;
  }

  /**
   * A session message processor and a client entity with the same arguments share one client entity.
   * Identity is by value here, so sharing means the two records are equal.
   */
  method SessionProcessorAndClientEntityShareEntity(provider: MessagingProvider, entityPath: string, connectionString: string)
    returns (processor: SessionMessageProcessor, entity: ClientEntity)
    requires provider.Valid() && entityPath != "" && connectionString != ""
    modifies provider
    ensures provider.Valid()
    ensures processor.clientEntity == entity
    ensures CacheKey(entityPath, connectionString) in provider.clientEntityCache
    ensures entity == provider.clientEntityCache[CacheKey(entityPath, connectionString)]
  {
    var p := provider.CreateSessionMessageProcessor(Some(entityPath), Some(connectionString));
    var e := provider.CreateClientEntity(Some(entityPath), Some(connectionString));
    processor, entity := p.value, e.value;
  }

  /**
   * With colliding keys the second caller gets the receiver built for the first caller's path and
   * connection, not one for its own.
   */
  method CollidingKeysShareReceiver(provider: MessagingProvider)
    returns (first: MessageReceiver, second: MessageReceiver)
    requires provider.Valid() && provider.messageReceiverCache == map[]
    modifies provider
    ensures first == second
    ensures second.entityPath == "a-b" && second.connectionString == "c"
  {
    CacheKeyCollision();
    first := provider.GetOrAddMessageReceiver("a-b", "c");
    second := provider.GetOrAddMessageReceiver("a", "b-c");
  }
}
