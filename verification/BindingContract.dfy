/**
 * The binding-data contract of ServiceBusTriggerBinding<T>: the names a function can bind to,
 * with their .NET types. Fifteen built-in names are added first; the value-type argument
 * binding's own contract is then assigned over them and wins on a name clash. The dictionary
 * ignores case.
 */
module BindingContract {
  import opened Wrappers
  import opened IgnoreCase

  /** The .NET types named in the binding-data contract. */
  datatype TypeRef =
    | Int32Type
    | StringType
    | DateTimeType
    | Int64Type
    | UserPropertiesType
    | MessageReceiverType
    | MessageSessionType
    | OtherType(fullName: string)

  /** The fifteen built-in binding-data names. */
  datatype Field =
    | DeliveryCount | DeadLetterSource | LockToken | ExpiresAtUtc | EnqueuedTimeUtc
    | MessageId | ContentType | ReplyTo | SequenceNumber | To | Label | CorrelationId
    | UserProperties | MessageReceiver | MessageSession
  {
    /** The thirteen names read off the message itself. */
    predicate FromMessage()
    {
      !MessageReceiver? && !MessageSession?
    }
  }

  /** The fields in the order the source adds them. */
  function FieldAt(i: nat): (f: Field)
    requires i < 15
  {
    match i
    case 0 => DeliveryCount
    case 1 => DeadLetterSource
    case 2 => LockToken
    case 3 => ExpiresAtUtc
    case 4 => EnqueuedTimeUtc
    case 5 => MessageId
    case 6 => ContentType
    case 7 => ReplyTo
    case 8 => SequenceNumber
    case 9 => To
    case 10 => Label
    case 11 => CorrelationId
    case 12 => UserProperties
    case 13 => MessageReceiver
    case _ => MessageSession
  }

  /** Where a field comes in that order: every field comes exactly once. */
  function Position(f: Field): (i: nat)
    ensures i < 15 && FieldAt(i) == f
    ensures f.FromMessage() <==> i < 13
  {
    match f
    case DeliveryCount => 0
    case DeadLetterSource => 1
    case LockToken => 2
    case ExpiresAtUtc => 3
    case EnqueuedTimeUtc => 4
    case MessageId => 5
    case ContentType => 6
    case ReplyTo => 7
    case SequenceNumber => 8
    case To => 9
    case Label => 10
    case CorrelationId => 11
    case UserProperties => 12
    case MessageReceiver => 13
    case MessageSession => 14
  }

  /** The order has no repeats: the field at index i sits at position i. */
  lemma PositionOfFieldAt(i: nat)
    requires i < 15
    ensures Position(FieldAt(i)) == i
  {
  }

  function FieldName(f: Field): string
  {
    match f
    case DeliveryCount => "DeliveryCount"
    case DeadLetterSource => "DeadLetterSource"
    case LockToken => "LockToken"
    case ExpiresAtUtc => "ExpiresAtUtc"
    case EnqueuedTimeUtc => "EnqueuedTimeUtc"
    case MessageId => "MessageId"
    case ContentType => "ContentType"
    case ReplyTo => "ReplyTo"
    case SequenceNumber => "SequenceNumber"
    case To => "To"
    case Label => "Label"
    case CorrelationId => "CorrelationId"
    case UserProperties => "UserProperties"
    case MessageReceiver => "MessageReceiver"
    case MessageSession => "MessageSession"
  }

  function FieldType(f: Field): TypeRef
  {
    match f
    case DeliveryCount => Int32Type
    case DeadLetterSource => StringType
    case LockToken => StringType
    case ExpiresAtUtc => DateTimeType
    case EnqueuedTimeUtc => DateTimeType
    case MessageId => StringType
    case ContentType => StringType
    case ReplyTo => StringType
    case SequenceNumber => Int64Type
    case To => StringType
    case Label => StringType
    case CorrelationId => StringType
    case UserProperties => UserPropertiesType
    case MessageReceiver => MessageReceiverType
    case MessageSession => MessageSessionType
  }

  // ---------------------------------------------------------------------------------------
  // The binding-data contract

  /** The key a field is stored under. */
  function FieldKey(f: Field): string
  {
    Fold(FieldName(f))
  }

  /** The length and upper-cased initial of each built-in name, which tell the fifteen apart. */
  function Shape(f: Field): (int, char)
  {
    match f
    case DeliveryCount => (13, 'D')
    case DeadLetterSource => (16, 'D')
    case LockToken => (9, 'L')
    case ExpiresAtUtc => (12, 'E')
    case EnqueuedTimeUtc => (15, 'E')
    case MessageId => (9, 'M')
    case ContentType => (11, 'C')
    case ReplyTo => (7, 'R')
    case SequenceNumber => (14, 'S')
    case To => (2, 'T')
    case Label => (5, 'L')
    case CorrelationId => (13, 'C')
    case UserProperties => (14, 'U')
    case MessageReceiver => (15, 'M')
    case MessageSession => (14, 'M')
  }

  lemma FieldKeyShape(f: Field)
    ensures |FieldKey(f)| == Shape(f).0 && FieldKey(f)[0] == Shape(f).1
  {
    var name := FieldName(f);
    assert |name| > 0 && ToUpper(name[0]) == name[0];
  }

  lemma ShapeInjective(f: Field, g: Field)
    ensures Shape(f) == Shape(g) ==> f == g
  {
  }

  /** No two built-in names differ only by case. */
  lemma FieldKeyInjective(f: Field, g: Field)
    ensures FieldKey(f) == FieldKey(g) <==> f == g
  {
    FieldKeyShape(f);
    FieldKeyShape(g);
    ShapeInjective(f, g);
  }

  /** No two built-in names are equal ignoring case, so none of the fifteen Adds throws. */
  lemma FieldKeysDistinct()
    ensures forall f: Field, g: Field :: FieldKey(f) == FieldKey(g) ==> f == g
  {
    forall f: Field, g: Field
      ensures FieldKey(f) == FieldKey(g) ==> f == g
    {
      FieldKeyInjective(f, g);
    }
  }

  /** The keys of the first `n` fields in source order. */
  function KeysBefore(n: nat): set<string>
    requires n <= 15
  {
    set i | 0 <= i < n :: FieldKey(FieldAt(i))
  }

  /** The keys of the fifteen fields. */
  function FixedKeys(): set<string>
  {
    KeysBefore(15)
  }

  /** The next field's key is not among the earlier ones, so its Add does not throw. */
  lemma NextKeyFresh(n: nat)
    requires n < 15
    ensures FieldKey(FieldAt(n)) !in KeysBefore(n)
  {
    forall i | 0 <= i < n
      ensures FieldKey(FieldAt(i)) != FieldKey(FieldAt(n))
    {
      PositionOfFieldAt(i);
      PositionOfFieldAt(n);
      FieldKeyInjective(FieldAt(i), FieldAt(n));
    }
  }

  lemma KeysBeforeNext(n: nat)
    requires n < 15
    ensures KeysBefore(n + 1) == KeysBefore(n) + {FieldKey(FieldAt(n))}
  {
    forall k | k in KeysBefore(n + 1)
      ensures k in KeysBefore(n) + {FieldKey(FieldAt(n))}
    {
      var i :| 0 <= i < n + 1 && k == FieldKey(FieldAt(i));
      if i < n {
        assert k in KeysBefore(n);
      }
    }
  }

  /** The first `n` of the fifteen `Add`s, in source order. */
  function AddFields(n: nat): (t: Table<TypeRef>)
    requires n <= 15
    ensures t.Keys == KeysBefore(n)
  {
    if n == 0 then map[]
    else
      var f := FieldAt(n - 1);
      NextKeyFresh(n - 1);
      KeysBeforeNext(n - 1);
      Add(AddFields(n - 1), FieldName(f), FieldType(f))
  }

  /** After the first `n` adds, each of those fields sits under its key with its own name and type. */
  lemma {:induction false} AddFieldsContents(n: nat)
    requires n <= 15
    ensures WellKeyed(AddFields(n))
    ensures forall f | Position(f) < n ::
              FieldKey(f) in AddFields(n) && AddFields(n)[FieldKey(f)] == Entry(FieldName(f), FieldType(f))
  {
    if n > 0 {
      AddFieldsContents(n - 1);
      var h := FieldAt(n - 1);
      PositionOfFieldAt(n - 1);
      NextKeyFresh(n - 1);
      AddFacts(AddFields(n - 1), FieldName(h), FieldType(h));
      forall f | Position(f) < n
        ensures FieldKey(f) in AddFields(n) && AddFields(n)[FieldKey(f)] == Entry(FieldName(f), FieldType(f))
      {
        if Position(f) < n - 1 {
          FieldKeyInjective(f, h);
        } else {
          assert f == h;
        }
      }
    }
  }

  /**
   * The contract the fifteen Adds build. As no two names are equal ignoring case
   * (FieldKeysDistinct), none of them throws.
   */
  function FixedContract(): Table<TypeRef>
  {
    AddFields(15)
  }

  /** The fixed contract holds exactly the fifteen fields, each under its own name and type. */
  lemma FixedContractContents()
    ensures WellKeyed(FixedContract())
    ensures FixedContract().Keys == FixedKeys()
    ensures forall f: Field :: FieldKey(f) in FixedContract() &&
                               FixedContract()[FieldKey(f)] == Entry(FieldName(f), FieldType(f))
  {
    AddFieldsContents(15);
  }

  /** The contract: the fixed entries, overlaid by the argument binding's contract when it is not null. */
  function ContractSpec(argumentBindingContract: Option<seq<(string, TypeRef)>>): Table<TypeRef>
  {
    match argumentBindingContract
    case None => FixedContract()
    case Some(items) => Overlay(FixedContract(), items)
  }

  method CreateBindingDataContract(argumentBindingContract: Option<seq<(string, TypeRef)>>)
    returns (contract: Table<TypeRef>)
    ensures contract == ContractSpec(argumentBindingContract)
    ensures WellKeyed(contract)
  {
    FixedContractContents();
    contract := FixedContract();
    if argumentBindingContract.Some? {
      // On a clash the value type's entry overrides the built-in one.
      contract := SetAll(contract, argumentBindingContract.value);
    }
  }

  /** The names the argument binding contributes, if any. */
  function ArgumentNames<V>(fromArgument: Option<seq<(string, V)>>): set<string>
  {
    match fromArgument
    case None => {}
    case Some(items) => NamesOf(items)
  }

  /** The contract binds exactly the fifteen built-in names and the argument binding's names. */
  lemma ContractKeys(argumentBindingContract: Option<seq<(string, TypeRef)>>)
    ensures ContractSpec(argumentBindingContract).Keys == FixedKeys() + ArgumentNames(argumentBindingContract)
  {
    FixedContractContents();
    if argumentBindingContract.Some? {
      OverlayKeys(FixedContract(), argumentBindingContract.value);
    }
  }

  /** A built-in name the argument binding does not redefine keeps its own type. */
  lemma BuiltInTypeKept(argumentBindingContract: Option<seq<(string, TypeRef)>>, f: Field)
    requires FieldKey(f) !in ArgumentNames(argumentBindingContract)
    ensures Lookup(ContractSpec(argumentBindingContract), FieldName(f)) == Some(FieldType(f))
  {
    FixedContractContents();
    if argumentBindingContract.Some? {
      OverlayUntouched(FixedContract(), argumentBindingContract.value, FieldName(f));
    }
  }

  /**
   * On a clash the argument binding's type wins: the last pair naming a key, in any casing,
   * decides its type, whether or not the name is built in.
   */
  lemma ArgumentTypeWins(items: seq<(string, TypeRef)>, i: nat)
    requires i < |items|
    requires forall j :: i < j < |items| ==> Fold(items[j].0) != Fold(items[i].0)
    ensures Lookup(ContractSpec(Some(items)), items[i].0) == Some(items[i].1)
  {
    OverlayLastWins(FixedContract(), items, i);
  }

  /** A built-in name keeps its own spelling, even when its type is overridden. */
  lemma BuiltInSpellingKept(argumentBindingContract: Option<seq<(string, TypeRef)>>, f: Field)
    ensures FieldKey(f) in ContractSpec(argumentBindingContract)
    ensures ContractSpec(argumentBindingContract)[FieldKey(f)].name == FieldName(f)
  {
    FixedContractContents();
    if argumentBindingContract.Some? {
      OverlayKeepsNames(FixedContract(), argumentBindingContract.value, FieldKey(f));
    }
  }
}
