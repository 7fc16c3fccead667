/**
 * The binding data of one triggered invocation: the message's properties under the fifteen
 * built-in names, then the value-type argument binding's own data assigned over them.
 *
 * Each built-in entry is added through a best-effort wrapper that swallows any exception, so an
 * entry whose getter throws is simply missing. The dictionary ignores case.
 */
module BindingData {
  import opened Wrappers
  import opened IgnoreCase
  import opened ServiceBusMessage
  import opened BindingContract
  import Messaging

  // ---------------------------------------------------------------------------------------
  // What each built-in name is bound to

  function BoxedInt32(o: Option<Int32>): Option<Value>
  {
    match o
    case None => None
    case Some(i) => Some(Int32Value(i))
  }

  function BoxedInt64(o: Option<Int64>): Option<Value>
  {
    match o
    case None => None
    case Some(l) => Some(Int64Value(l))
  }

  function BoxedString(o: Option<NullableString>): Option<Value>
  {
    match o
    case None => None
    case Some(s) => Some(BoxString(s))
  }

  function BoxedDateTime(o: Option<DateTime>): Option<Value>
  {
    match o
    case None => None
    case Some(d) => Some(DateTimeValue(d))
  }

  /** The lock token when one is set, otherwise the empty string. */
  function LockTokenValue(m: Message): Option<Value>
  {
    if !m.isLockTokenSet then Some(StringValue(""))
    else match m.lockToken
      case None => None
      case Some(token) => Some(StringValue(token))
  }

  /** What reading a message property yields: `None` when its getter throws. */
  function Read(m: Message, f: Field): Option<Value>
    requires f.FromMessage()
  {
    match f
    case DeliveryCount => BoxedInt32(m.deliveryCount)
    case DeadLetterSource => BoxedString(m.deadLetterSource)
    case LockToken => LockTokenValue(m)
    case ExpiresAtUtc => BoxedDateTime(m.expiresAtUtc)
    case EnqueuedTimeUtc => BoxedDateTime(m.enqueuedTimeUtc)
    case MessageId => BoxedString(m.messageId)
    case ContentType => BoxedString(m.contentType)
    case ReplyTo => BoxedString(m.replyTo)
    case SequenceNumber => BoxedInt64(m.sequenceNumber)
    case To => BoxedString(m.to)
    case Label => BoxedString(m.messageLabel)
    case CorrelationId => BoxedString(m.correlationId)
    case UserProperties =>
      match m.userProperties
      case None => None
      case Some(p) => Some(UserPropertiesValue(p))
  }

  /**
   * What the best-effort add for `f` contributes: a message property only when there is a
   * message and its getter returns; the receiver and the session always, null or not.
   */
  function Produced(value: Option<Message>, receiver: Option<Messaging.MessageReceiver>,
                    messageSession: Option<SessionHandle>, f: Field): Option<Value>
  {
    if f.MessageReceiver? then Some(BoxReceiver(receiver))
    else if f.MessageSession? then Some(BoxSession(messageSession))
    else match value
      case None => None
      case Some(m) => Read(m, f)
  }

  // ---------------------------------------------------------------------------------------
  // The best-effort adds

  /**
   * `SafeAddValue(() => bindingData.Add(name, getter()))`: the getter's result is added when it
   * returns, and any exception (from the getter, or from Add on a name already present) leaves
   * the dictionary as it was.
   */
  function SafeAdd(t: Table<Value>, name: string, read: Option<Value>): Table<Value>
  {
    match read
    case None => t
    case Some(v) => TryAdd(t, name, v)
  }

  /** The dictionary after the first `n` best-effort adds, in source order. */
  function AddFirst(produced: Field -> Option<Value>, n: nat): Table<Value>
    requires n <= 15
  {
    if n == 0 then map[]
    else SafeAdd(AddFirst(produced, n - 1), FieldName(FieldAt(n - 1)), produced(FieldAt(n - 1)))
  }

  /** What the best-effort adds see for one invocation. */
  function Producer(value: Option<Message>, receiver: Option<Messaging.MessageReceiver>,
                    messageSession: Option<SessionHandle>): Field -> Option<Value>
  {
    f => Produced(value, receiver, messageSession, f)
  }

  /** Every key belongs to one of the first `n` fields, and one whose value was produced. */
  predicate KeysAmong(t: Table<Value>, produced: Field -> Option<Value>, n: nat)
  {
    forall k | k in t :: exists f :: Position(f) < n && k == FieldKey(f) && produced(f).Some?
  }

  /** Each of the first `n` fields is bound to what was produced for it, or absent when nothing was. */
  predicate BoundAsProduced(t: Table<Value>, produced: Field -> Option<Value>, n: nat)
  {
    forall f | Position(f) < n :: Lookup(t, FieldName(f)) == produced(f)
  }

  /** Each of the first `n` fields that is bound keeps its own spelling. */
  predicate SpelledAsField(t: Table<Value>, n: nat)
  {
    forall f | Position(f) < n && FieldKey(f) in t :: t[FieldKey(f)].name == FieldName(f)
  }

  /** What holds of the dictionary after the first `n` adds (see AddFirstContents). */
  predicate HoldsAfter(t: Table<Value>, produced: Field -> Option<Value>, n: nat)
  {
    WellKeyed(t) && KeysAmong(t, produced, n) && BoundAsProduced(t, produced, n) && SpelledAsField(t, n)
  }

  /** A field not among the first `n` is not yet present. */
  lemma LaterKeyFresh(t: Table<Value>, produced: Field -> Option<Value>, n: nat, g: Field)
    requires KeysAmong(t, produced, n) && n <= Position(g)
    ensures FieldKey(g) !in t
  {
    forall f | Position(f) < n
      ensures FieldKey(f) != FieldKey(g)
    {
      FieldKeyInjective(f, g);
    }
  }

  /** An add under a name not yet present binds it, keeps its spelling and leaves every other name alone. */
  lemma SafeAddFresh(t: Table<Value>, name: string, read: Option<Value>)
    requires Fold(name) !in t
    ensures WellKeyed(t) ==> WellKeyed(SafeAdd(t, name, read))
    ensures SafeAdd(t, name, read).Keys == if read.Some? then t.Keys + {Fold(name)} else t.Keys
    ensures Lookup(SafeAdd(t, name, read), name) == read
    ensures read.Some? ==> SafeAdd(t, name, read)[Fold(name)].name == name
    ensures forall k | k in t :: SafeAdd(t, name, read)[k] == t[k]
  {
    if read.Some? {
      TryAddFacts(t, name, read.value);
    }
  }

  lemma StepKeys(t: Table<Value>, produced: Field -> Option<Value>, n: nat, g: Field)
    requires Position(g) == n && KeysAmong(t, produced, n) && FieldKey(g) !in t
    ensures KeysAmong(SafeAdd(t, FieldName(g), produced(g)), produced, n + 1)
  {
    var t' := SafeAdd(t, FieldName(g), produced(g));
    SafeAddFresh(t, FieldName(g), produced(g));
    forall k | k in t'
      ensures exists f :: Position(f) < n + 1 && k == FieldKey(f) && produced(f).Some?
    {
      if k !in t {
        assert k == FieldKey(g);
      }
    }
  }

  lemma StepBound(t: Table<Value>, produced: Field -> Option<Value>, n: nat, g: Field)
    requires Position(g) == n && BoundAsProduced(t, produced, n) && FieldKey(g) !in t
    ensures BoundAsProduced(SafeAdd(t, FieldName(g), produced(g)), produced, n + 1)
  {
    var t' := SafeAdd(t, FieldName(g), produced(g));
    SafeAddFresh(t, FieldName(g), produced(g));
    forall f | Position(f) < n + 1
      ensures Lookup(t', FieldName(f)) == produced(f)
    {
      if f != g {
        FieldKeyInjective(f, g);
        assert Lookup(t, FieldName(f)) == produced(f);
      }
    }
  }

  lemma StepSpelled(t: Table<Value>, produced: Field -> Option<Value>, n: nat, g: Field)
    requires Position(g) == n && SpelledAsField(t, n) && FieldKey(g) !in t
    ensures SpelledAsField(SafeAdd(t, FieldName(g), produced(g)), n + 1)
  {
    var t' := SafeAdd(t, FieldName(g), produced(g));
    SafeAddFresh(t, FieldName(g), produced(g));
    forall f | Position(f) < n + 1 && FieldKey(f) in t'
      ensures t'[FieldKey(f)].name == FieldName(f)
    {
      if f != g {
        FieldKeyInjective(f, g);
      }
    }
  }

  /** One more add keeps HoldsAfter: the new name is never already present. */
  lemma AddStep(t: Table<Value>, produced: Field -> Option<Value>, n: nat)
    requires n < 15 && HoldsAfter(t, produced, n)
    ensures HoldsAfter(SafeAdd(t, FieldName(FieldAt(n)), produced(FieldAt(n))), produced, n + 1)
  {
    var g := FieldAt(n);
    assert Position(g) == n;
    LaterKeyFresh(t, produced, n, g);
    SafeAddFresh(t, FieldName(g), produced(g));
    StepKeys(t, produced, n, g);
    StepBound(t, produced, n, g);
    StepSpelled(t, produced, n, g);
  }

  /**
   * After the first `n` adds, exactly the fields among the first `n` whose value was produced
   * are bound, each under its own spelling to what was produced for it: no add collides with an
   * earlier one, since no two built-in names are equal ignoring case.
   */
  lemma {:induction false} AddFirstContents(produced: Field -> Option<Value>, n: nat)
    requires n <= 15
    ensures HoldsAfter(AddFirst(produced, n), produced, n)
  {
    if n > 0 {
      AddFirstContents(produced, n - 1);
      AddStep(AddFirst(produced, n - 1), produced, n - 1);
    }
  }

  /** The built-in binding data, before the value type's data is assigned over it. */
  function BuiltInData(value: Option<Message>, receiver: Option<Messaging.MessageReceiver>,
                       messageSession: Option<SessionHandle>): (t: Table<Value>)
    ensures HoldsAfter(t, Producer(value, receiver, messageSession), 15)
  {
    var produced := Producer(value, receiver, messageSession);
    AddFirstContents(produced, 15);
    AddFirst(produced, 15)
  }

  /** Each built-in name is bound to what its add produced, and is absent when nothing was. */
  lemma BuiltInBound(value: Option<Message>, receiver: Option<Messaging.MessageReceiver>,
                     messageSession: Option<SessionHandle>, f: Field)
    ensures Lookup(BuiltInData(value, receiver, messageSession), FieldName(f)) == Produced(value, receiver, messageSession, f)
  {
    var t := BuiltInData(value, receiver, messageSession);
    assert Position(f) < 15;
  }

  /** The built-in data binds nothing but built-in names whose value was produced, each spelled as in the source. */
  lemma BuiltInKeys(value: Option<Message>, receiver: Option<Messaging.MessageReceiver>,
                    messageSession: Option<SessionHandle>, k: string)
    ensures k in BuiltInData(value, receiver, messageSession) <==>
              exists f :: k == FieldKey(f) && Produced(value, receiver, messageSession, f).Some?
    ensures k in BuiltInData(value, receiver, messageSession) ==>
              exists f :: k == FieldKey(f) && BuiltInData(value, receiver, messageSession)[k].name == FieldName(f)
  {
    var t := BuiltInData(value, receiver, messageSession);
    var produced := Producer(value, receiver, messageSession);
    if k in t {
      var f :| Position(f) < 15 && k == FieldKey(f) && produced(f).Some?;
      assert t[k].name == FieldName(f);
    }
    if exists f :: k == FieldKey(f) && Produced(value, receiver, messageSession, f).Some? {
      var f :| k == FieldKey(f) && Produced(value, receiver, messageSession, f).Some?;
      assert Position(f) < 15;
      assert Lookup(t, FieldName(f)).Some?;
    }
  }

  /** The binding data: the built-in entries, with the value type's data assigned over them. */
  function BindingDataSpec(value: Option<Message>, receiver: Option<Messaging.MessageReceiver>,
                           messageSession: Option<SessionHandle>,
                           bindingDataFromValueType: Option<seq<(string, Value)>>): Table<Value>
  {
    var builtIn := BuiltInData(value, receiver, messageSession);
    match bindingDataFromValueType
    case None => builtIn
    case Some(items) => Overlay(builtIn, items)
  }

  method CreateBindingData(value: Option<Message>, receiver: Option<Messaging.MessageReceiver>,
                           messageSession: Option<SessionHandle>,
                           bindingDataFromValueType: Option<seq<(string, Value)>>)
    returns (bindingData: Table<Value>)
    ensures bindingData == BindingDataSpec(value, receiver, messageSession, bindingDataFromValueType)
    ensures WellKeyed(bindingData)
  {
    // The fifteen best-effort adds, in source order; the thirteen message adds only with a message.
    bindingData := BuiltInData(value, receiver, messageSession);

    if bindingDataFromValueType.Some? {
      // On a clash the value type's entry overrides the built-in one.
      bindingData := SetAll(bindingData, bindingDataFromValueType.value);
    }
  }

  // ---------------------------------------------------------------------------------------
  // What the binding data holds

  /** A message property is bound to what its getter returned, and is missing when the getter threw. */
  lemma MessagePropertyBound(m: Message, receiver: Option<Messaging.MessageReceiver>,
                             messageSession: Option<SessionHandle>, f: Field)
    requires f.FromMessage()
    ensures Lookup(BuiltInData(Some(m), receiver, messageSession), FieldName(f)) == Read(m, f)
  {
    BuiltInBound(Some(m), receiver, messageSession, f);
  }

  /** LockToken is the empty string when no lock token is set, and the token when one is. */
  lemma LockTokenBound(m: Message, receiver: Option<Messaging.MessageReceiver>, messageSession: Option<SessionHandle>)
    ensures !m.isLockTokenSet ==>
              Lookup(BuiltInData(Some(m), receiver, messageSession), "LockToken") == Some(StringValue(""))
    ensures m.isLockTokenSet && m.lockToken.Some? ==>
              Lookup(BuiltInData(Some(m), receiver, messageSession), "LockToken") == Some(StringValue(m.lockToken.value))
  {
    assert FieldName(LockToken) == "LockToken";
    MessagePropertyBound(m, receiver, messageSession, LockToken);
  }

  /** MessageReceiver and MessageSession are always bound, to null when there is none. */
  lemma ReceiverAndSessionBound(value: Option<Message>, receiver: Option<Messaging.MessageReceiver>,
                                messageSession: Option<SessionHandle>)
    ensures Lookup(BuiltInData(value, receiver, messageSession), FieldName(MessageReceiver)) == Some(BoxReceiver(receiver))
    ensures Lookup(BuiltInData(value, receiver, messageSession), FieldName(MessageSession)) == Some(BoxSession(messageSession))
  {
    BuiltInBound(value, receiver, messageSession, MessageReceiver);
    BuiltInBound(value, receiver, messageSession, MessageSession);
  }

  /** Without a message only MessageReceiver and MessageSession are bound. */
  lemma NoMessageBindsOnlyReceiverAndSession(receiver: Option<Messaging.MessageReceiver>,
                                             messageSession: Option<SessionHandle>, k: string)
    ensures k in BuiltInData(None, receiver, messageSession) <==>
              k == FieldKey(MessageReceiver) || k == FieldKey(MessageSession)
  {
    BuiltInKeys(None, receiver, messageSession, k);
    if k in BuiltInData(None, receiver, messageSession) {
      var f :| k == FieldKey(f) && Produced(None, receiver, messageSession, f).Some?;
      assert f == MessageReceiver || f == MessageSession;
    } else {
      assert Produced(None, receiver, messageSession, MessageReceiver).Some?;
      assert Produced(None, receiver, messageSession, MessageSession).Some?;
    }
  }

  /**
   * Without a message the binding data holds MessageReceiver, MessageSession and the value type's
   * names, and nothing else.
   */
  lemma NoMessageBindingDataKeys(receiver: Option<Messaging.MessageReceiver>, messageSession: Option<SessionHandle>,
                                 bindingDataFromValueType: Option<seq<(string, Value)>>, k: string)
    ensures k in BindingDataSpec(None, receiver, messageSession, bindingDataFromValueType) <==>
              k == FieldKey(MessageReceiver) || k == FieldKey(MessageSession) || k in ArgumentNames(bindingDataFromValueType)
  {
    NoMessageBindsOnlyReceiverAndSession(receiver, messageSession, k);
    match bindingDataFromValueType
    case None =>
    case Some(items) =>
      OverlayKeys(BuiltInData(None, receiver, messageSession), items);
  }

  /** Every name the built-in data binds is declared by the fixed contract. */
  lemma BuiltInNamesDeclared(value: Option<Message>, receiver: Option<Messaging.MessageReceiver>,
                             messageSession: Option<SessionHandle>)
    ensures BuiltInData(value, receiver, messageSession).Keys <= FixedKeys()
  {
    FixedContractContents();
    forall k | k in BuiltInData(value, receiver, messageSession)
      ensures k in FixedKeys()
    {
      BuiltInKeys(value, receiver, messageSession, k);
    }
  }

  /** Whether a bound object has the .NET type the contract declares; null has every reference type. */
  predicate HasType(v: Value, t: TypeRef)
  {
    match t
    case Int32Type => v.Int32Value?
    case Int64Type => v.Int64Value?
    case DateTimeType => v.DateTimeValue?
    case StringType => v.StringValue? || v.Null?
    case UserPropertiesType => v.UserPropertiesValue? || v.Null?
    case MessageReceiverType => v.ReceiverValue? || v.Null?
    case MessageSessionType => v.SessionValue? || v.Null?
    case OtherType(_) => true
  }

  /** What each built-in add produces has the type the contract declares for that name. */
  lemma ProducedHasDeclaredType(value: Option<Message>, receiver: Option<Messaging.MessageReceiver>,
                                messageSession: Option<SessionHandle>, f: Field)
    requires Produced(value, receiver, messageSession, f).Some?
    ensures HasType(Produced(value, receiver, messageSession, f).value, FieldType(f))
  {
  }

  // ---------------------------------------------------------------------------------------
  // The value type's data over the built-in data

  /** On a clash the value type's data wins: the last pair naming a key, in any casing, decides it. */
  lemma ValueTypeDataWins(value: Option<Message>, receiver: Option<Messaging.MessageReceiver>,
                          messageSession: Option<SessionHandle>, items: seq<(string, Value)>, i: nat)
    requires i < |items|
    requires forall j :: i < j < |items| ==> Fold(items[j].0) != Fold(items[i].0)
    ensures Lookup(BindingDataSpec(value, receiver, messageSession, Some(items)), items[i].0) == Some(items[i].1)
  {
    OverlayLastWins(BuiltInData(value, receiver, messageSession), items, i);
  }

  /**
   * A built-in name the value type does not redefine keeps what its add produced, and so the type
   * the fixed contract declares for it.
   */
  lemma BuiltInDataKept(value: Option<Message>, receiver: Option<Messaging.MessageReceiver>,
                        messageSession: Option<SessionHandle>,
                        bindingDataFromValueType: Option<seq<(string, Value)>>, f: Field)
    requires FieldKey(f) !in ArgumentNames(bindingDataFromValueType)
    ensures Lookup(BindingDataSpec(value, receiver, messageSession, bindingDataFromValueType), FieldName(f)) ==
              Produced(value, receiver, messageSession, f)
    ensures match Produced(value, receiver, messageSession, f)
            case None => true
            case Some(v) => HasType(v, FieldType(f))
  {
    BuiltInBound(value, receiver, messageSession, f);
    if bindingDataFromValueType.Some? {
      OverlayUntouched(BuiltInData(value, receiver, messageSession), bindingDataFromValueType.value, FieldName(f));
    }
    if Produced(value, receiver, messageSession, f).Some? {
      ProducedHasDeclaredType(value, receiver, messageSession, f);
    }
  }

  /**
   * Every name the binding data binds is declared by the binding-data contract, as long as the
   * value type declares in its contract every name it binds.
   */
  lemma BoundNamesDeclared(value: Option<Message>, receiver: Option<Messaging.MessageReceiver>,
                           messageSession: Option<SessionHandle>,
                           bindingDataFromValueType: Option<seq<(string, Value)>>,
                           argumentBindingContract: Option<seq<(string, TypeRef)>>)
    requires ArgumentNames(bindingDataFromValueType) <= ArgumentNames(argumentBindingContract)
    ensures BindingDataSpec(value, receiver, messageSession, bindingDataFromValueType).Keys <=
              ContractSpec(argumentBindingContract).Keys
  {
    BuiltInNamesDeclared(value, receiver, messageSession);
    ContractKeys(argumentBindingContract);
    if bindingDataFromValueType.Some? {
      OverlayKeys(BuiltInData(value, receiver, messageSession), bindingDataFromValueType.value);
    }
  }
}
