/**
 * ServiceBusTriggerBinding<T>: turns the object a Service Bus listener hands over into the
 * function's argument (through the value-type argument binding) and the invocation's binding
 * data. The binding remembers the listener it created last, whose receiver and session are bound
 * by name into every later invocation.
 *
 * The argument binding, the listener factory and the string deserializer are code this model
 * does not see: they are function values.
 */
module TriggerBinding {
  import opened Wrappers
  import opened IgnoreCase
  import opened ServiceBusMessage
  import opened Conversion
  import opened BindingContract
  import opened BindingData
  import Messaging

  /** The error every failed bind reports. */
  const ConvertError: string := "Unable to convert trigger to Message."

  /** The `ValueBindingContext` of one invocation, passed through to the argument binding. */
  datatype ValueBindingContext = ValueBindingContext(id: nat)

  /** The argument's `IValueProvider`, produced by the argument binding and passed through. */
  datatype ValueProvider = ValueProvider(id: nat)

  /** What the value-type argument binding returns: the value provider and its own binding data (null allowed). */
  datatype ArgumentData = ArgumentData(valueProvider: ValueProvider, bindingData: Option<seq<(string, Value)>>)

  /** `ITriggerDataArgumentBinding<T>`: its declared contract (null allowed) and its bind operation. */
  datatype ArgumentBinding = ArgumentBinding(
    bindingDataContract: Option<seq<(string, TypeRef)>>,
    bind: (Converted, ValueBindingContext) -> ArgumentData)

  /** The `TriggerData` a bind returns. */
  datatype TriggerData = TriggerData(valueProvider: ValueProvider, bindingData: Table<Value>)

  /** The `ServiceBusListener` a listener factory builds; its receiver and session may be null. */
  datatype ServiceBusListener = ServiceBusListener(receiver: Option<Messaging.MessageReceiver>,
                                                   messageSession: Option<SessionHandle>)

  datatype ServiceBusAccount = ServiceBusAccount(connectionString: string, entityPath: string)

  /** The function executor a listener is created for. */
  datatype Executor = Executor(id: nat)

  datatype ListenerFactoryContext = ListenerFactoryContext(executor: Executor)

  /** What a listener factory is built from. */
  datatype ListenerInputs = ListenerInputs(account: ServiceBusAccount, executor: Executor, options: Messaging.ServiceBusOptions)

  /**
   * `value as Message`: a single message, and null for a batch. The cast has no other cases, so the
   * contract is its whole meaning.
   */
  function AsMessage(c: Converted): (m: Option<Message>)
    ensures m.Some? <==> c.SingleMessage?
    ensures c.SingleMessage? ==> m == Some(c.message)
  {
    match c
    case SingleMessage(m) => Some(m)
    case MessageBatch(_) => None
  }

  /** `_listener?.Receiver` */
  function ReceiverOf(listener: Option<ServiceBusListener>): Option<Messaging.MessageReceiver>
  {
    match listener
    case None => None
    case Some(l) => l.receiver
  }

  /** `_listener?.MessageSession` */
  function SessionOf(listener: Option<ServiceBusListener>): Option<SessionHandle>
  {
    match listener
    case None => None
    case Some(l) => l.messageSession
  }

  /**
   * A bind: a null object, or one no converter stage accepts, fails with InvalidOperation;
   * otherwise the argument binding binds the converted value and the binding data is built from
   * it, the listener's receiver and session, and the argument binding's own data.
   */
  function Bind(converter: seq<Stage>, deserialize: string -> Message, argumentBinding: ArgumentBinding,
                listener: Option<ServiceBusListener>, value: Option<RawValue>,
                context: ValueBindingContext): Result<TriggerData, Exception>
  {
    if value.None? then Failure(InvalidOperation(ConvertError))
    else match TryConvert(converter, deserialize, value.value)
      case None => Failure(InvalidOperation(ConvertError))
      case Some(c) =>
        var triggerData := argumentBinding.bind(c, context);
        Success(TriggerData(triggerData.valueProvider,
                            BindingDataSpec(AsMessage(c), ReceiverOf(listener), SessionOf(listener), triggerData.bindingData)))
  }

  class ServiceBusTriggerBinding {
    const parameterName: string
    /** The type parameter T. */
    const triggerType: TriggerType
    /** The string-to-message deserializer made for the parameter type. */
    const deserialize: string -> Message
    const converter: seq<Stage>
    const argumentBinding: ArgumentBinding
    const bindingDataContract: Table<TypeRef>
    const account: ServiceBusAccount
    const options: Messaging.ServiceBusOptions
    const messagingProvider: Messaging.MessagingProvider
    /** The listener created last, or null before any. */
    var listener: Option<ServiceBusListener>

    /** The converter suits T and the contract is the built-in one overlaid by the argument binding's. */
    predicate Valid()
    {
      && converter == SelectConverter(triggerType)
      && bindingDataContract == ContractSpec(argumentBinding.bindingDataContract)
      && WellKeyed(bindingDataContract)
    }

    constructor (parameterName: string, triggerType: TriggerType, deserialize: string -> Message,
                 argumentBinding: ArgumentBinding, account: ServiceBusAccount,
                 options: Messaging.ServiceBusOptions, messagingProvider: Messaging.MessagingProvider)
      ensures Valid()
      ensures this.parameterName == parameterName && this.triggerType == triggerType
      ensures this.deserialize == deserialize && this.argumentBinding == argumentBinding
      ensures this.account == account && this.options == options && this.messagingProvider == messagingProvider
      ensures listener.None?
    {
      this.parameterName := parameterName;
      this.triggerType := triggerType;
      this.deserialize := deserialize;
      converter := SelectConverter(triggerType);
      this.argumentBinding := argumentBinding;
      var contract := CreateBindingDataContract(argumentBinding.bindingDataContract);
      bindingDataContract := contract;
      this.account := account;
      this.options := options;
      this.messagingProvider := messagingProvider;
      listener := None;
    }

    /** `TriggerValueType`: T, the type the converter produces. */
    function TriggerValueType(): (t: TriggerType)
      requires Valid()
      ensures t.IsArray() <==> converter == CreateConverterArray()
      ensures converter[0] == Identity(t) && converter[1] == FromText(t)
    {
      triggerType
    }

    /** `BindingDataContract`: the contract built at construction. */
    function BindingDataContract(): (contract: Table<TypeRef>)
      requires Valid()
      ensures contract == ContractSpec(argumentBinding.bindingDataContract)
      ensures WellKeyed(contract)
    {
      bindingDataContract
    }

    /** `BindAsync`: reads the listener field and changes nothing. */
    method BindAsync(value: Option<RawValue>, context: ValueBindingContext) returns (r: Result<TriggerData, Exception>)
      requires Valid()
      ensures r == Bind(converter, deserialize, argumentBinding, listener, value, context)
    {
      if value.Some? {
        var converted := TryConvert(converter, deserialize, value.value);
        if converted.None? {
          return Failure(InvalidOperation(ConvertError));
        }
        var triggerData := argumentBinding.bind(converted.value, context);
        var bindingData := CreateBindingData(AsMessage(converted.value), ReceiverOf(listener),
                                             SessionOf(listener), triggerData.bindingData);
        return Success(TriggerData(triggerData.valueProvider, bindingData));
      } else {
        return Failure(InvalidOperation(ConvertError));
      }
    }

    /**
     * `CreateListenerAsync`: a null context throws and leaves the field alone; otherwise the
     * factory's listener is stored and returned.
     */
    method CreateListenerAsync(context: Option<ListenerFactoryContext>, createListener: ListenerInputs -> ServiceBusListener)
      returns (r: Result<ServiceBusListener, Exception>)
      modifies this
      ensures context.None? ==> r == Failure(ArgumentNull("context")) && listener == old(listener)
      ensures context.Some? ==>
                var created := createListener(ListenerInputs(account, context.value.executor, options));
                r == Success(created) && listener == Some(created)
    {
      if context.None? {
        return Failure(ArgumentNull("context"));
      }
      var created := createListener(ListenerInputs(account, context.value.executor, options));
      listener := Some(created);
      return Success(created);
    }
  }

  // ---------------------------------------------------------------------------------------
  // Properties of a bind

  /** A bind fails exactly when the object is null or no stage converts it, always with the same error. */
  lemma BindFailsIff(converter: seq<Stage>, deserialize: string -> Message, argumentBinding: ArgumentBinding,
                     listener: Option<ServiceBusListener>, value: Option<RawValue>, context: ValueBindingContext)
    ensures Bind(converter, deserialize, argumentBinding, listener, value, context).Failure? <==>
              value.None? || TryConvert(converter, deserialize, value.value).None?
    ensures Bind(converter, deserialize, argumentBinding, listener, value, context).Failure? ==>
              Bind(converter, deserialize, argumentBinding, listener, value, context).error == InvalidOperation(ConvertError)
  {
  }

  /**
   * For a single-message trigger, a message object binds each message property to what its
   * getter returned, unless the argument binding's data redefines that name.
   */
  lemma MessagePropertiesBound(deserialize: string -> Message, argumentBinding: ArgumentBinding,
                               listener: Option<ServiceBusListener>, m: Message,
                               context: ValueBindingContext, f: Field)
    requires f.FromMessage()
    requires FieldKey(f) !in ArgumentNames(argumentBinding.bind(SingleMessage(m), context).bindingData)
    ensures var r := Bind(SelectConverter(MessageType), deserialize, argumentBinding, listener, Some(MessageObject(m)), context);
            r.Success? && Lookup(r.value.bindingData, FieldName(f)) == Read(m, f)
  {
    ConvertSingle(deserialize, MessageObject(m));
    BindKeeps(SelectConverter(MessageType), deserialize, argumentBinding, listener, MessageObject(m), context, f);
  }

  /**
   * For an array trigger the converted value is not a single message, so no message property is
   * bound at all, whatever the batch holds: only the argument binding's data can supply one.
   */
  lemma BatchBindsNoMessageProperties(deserialize: string -> Message, argumentBinding: ArgumentBinding,
                                      listener: Option<ServiceBusListener>, value: RawValue,
                                      context: ValueBindingContext, f: Field)
    requires f.FromMessage()
    requires TryConvert(SelectConverter(MessageArrayType), deserialize, value).Some?
    ensures var c := TryConvert(SelectConverter(MessageArrayType), deserialize, value).value;
            var r := Bind(SelectConverter(MessageArrayType), deserialize, argumentBinding, listener, Some(value), context);
            FieldKey(f) !in ArgumentNames(argumentBinding.bind(c, context).bindingData) ==>
              r.Success? && Lookup(r.value.bindingData, FieldName(f)).None?
  {
    ConvertedHasTriggerType(MessageArrayType, deserialize, value);
    BindKeeps(SelectConverter(MessageArrayType), deserialize, argumentBinding, listener, value, context, f);
  }

  /**
   * MessageReceiver and MessageSession are bound to the stored listener's receiver and session,
   * and to null before any listener was created, unless the argument binding's data redefines them.
   */
  lemma ListenerBound(converter: seq<Stage>, deserialize: string -> Message, argumentBinding: ArgumentBinding,
                      listener: Option<ServiceBusListener>, value: RawValue, context: ValueBindingContext)
    requires TryConvert(converter, deserialize, value).Some?
    ensures var c := TryConvert(converter, deserialize, value).value;
            var data := argumentBinding.bind(c, context).bindingData;
            var r := Bind(converter, deserialize, argumentBinding, listener, Some(value), context);
            && r.Success?
            && (FieldKey(MessageReceiver) !in ArgumentNames(data) ==>
                  Lookup(r.value.bindingData, FieldName(MessageReceiver)) == Some(BoxReceiver(ReceiverOf(listener))))
            && (FieldKey(MessageSession) !in ArgumentNames(data) ==>
                  Lookup(r.value.bindingData, FieldName(MessageSession)) == Some(BoxSession(SessionOf(listener))))
  {
    BindKeeps(converter, deserialize, argumentBinding, listener, value, context, MessageReceiver);
    BindKeeps(converter, deserialize, argumentBinding, listener, value, context, MessageSession);
  }

  /** A converted value binds each built-in name the argument binding's data leaves alone as produced. */
  lemma BindKeeps(converter: seq<Stage>, deserialize: string -> Message, argumentBinding: ArgumentBinding,
                  listener: Option<ServiceBusListener>, value: RawValue, context: ValueBindingContext, f: Field)
    requires TryConvert(converter, deserialize, value).Some?
    ensures var c := TryConvert(converter, deserialize, value).value;
            var r := Bind(converter, deserialize, argumentBinding, listener, Some(value), context);
            && r.Success?
            && (FieldKey(f) !in ArgumentNames(argumentBinding.bind(c, context).bindingData) ==>
                  Lookup(r.value.bindingData, FieldName(f)) == Produced(AsMessage(c), ReceiverOf(listener), SessionOf(listener), f))
  {
    var c := TryConvert(converter, deserialize, value).value;
    var data := argumentBinding.bind(c, context).bindingData;
    if FieldKey(f) !in ArgumentNames(data) {
      BuiltInDataKept(AsMessage(c), ReceiverOf(listener), SessionOf(listener), data, f);
    }
  }

  /**
   * Every name a successful bind puts in the binding data is declared by the binding-data
   * contract, provided the argument binding declares every name it binds.
   */
  lemma BoundNamesInContract(converter: seq<Stage>, deserialize: string -> Message, argumentBinding: ArgumentBinding,
                             listener: Option<ServiceBusListener>, value: Option<RawValue>, context: ValueBindingContext)
    requires forall c :: ArgumentNames(argumentBinding.bind(c, context).bindingData) <= ArgumentNames(argumentBinding.bindingDataContract)
    ensures var r := Bind(converter, deserialize, argumentBinding, listener, value, context);
            r.Success? ==> r.value.bindingData.Keys <= ContractSpec(argumentBinding.bindingDataContract).Keys
  {
    if value.Some? && TryConvert(converter, deserialize, value.value).Some? {
      var c := TryConvert(converter, deserialize, value.value).value;
      BoundNamesDeclared(AsMessage(c), ReceiverOf(listener), SessionOf(listener),
                         argumentBinding.bind(c, context).bindingData, argumentBinding.bindingDataContract);
    }
  }

  // ---------------------------------------------------------------------------------------
  // The listener field between calls

  /** A bind after a listener was created binds that listener's receiver. */
  method CreateListenerThenBind(binding: ServiceBusTriggerBinding, context: ListenerFactoryContext,
                                createListener: ListenerInputs -> ServiceBusListener, m: Message,
                                bindContext: ValueBindingContext)
    returns (created: ServiceBusListener, data: TriggerData)
    requires binding.Valid() && binding.triggerType == MessageType
    requires binding.argumentBinding.bind(SingleMessage(m), bindContext).bindingData.None?
    modifies binding
    ensures created == createListener(ListenerInputs(binding.account, context.executor, binding.options))
    ensures Lookup(data.bindingData, FieldName(MessageReceiver)) == Some(BoxReceiver(created.receiver))
    ensures Lookup(data.bindingData, FieldName(MessageSession)) == Some(BoxSession(created.messageSession))
  {
    var r := binding.CreateListenerAsync(Some(context), createListener);
    created := r.value;
    ConvertSingle(binding.deserialize, MessageObject(m));
    ListenerBound(binding.converter, binding.deserialize, binding.argumentBinding, binding.listener,
                  MessageObject(m), bindContext);
    var bound := binding.BindAsync(Some(MessageObject(m)), bindContext);
    data := bound.value;
  }
}
