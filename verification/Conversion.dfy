/**
 * The trigger's object-to-T converter: a composite of two stages tried in order, the first that
 * accepts the incoming object winning. Stage one passes a value that already has the target type
 * through unchanged; stage two deserializes a string (or, for an array trigger, each string of
 * a string array) into messages.
 *
 * The deserializer made for the parameter type is an abstract function parameter.
 */
module Conversion {
  import opened Wrappers
  import opened ServiceBusMessage

  /** The trigger's type parameter T: `Message` or `Message[]`. */
  datatype TriggerType = MessageType | MessageArrayType
  {
    predicate IsArray()
    {
      MessageArrayType?
    }
  }

  /** The object handed to the binding by the listener (a null object is handled before conversion). */
  datatype RawValue =
    | MessageObject(message: Message)
    | MessageArrayObject(messages: seq<Message>)
    | StringObject(text: string)
    | StringArrayObject(texts: seq<string>)
    | OtherObject(id: nat)

  /** A value of type T. */
  datatype Converted =
    | SingleMessage(message: Message)
    | MessageBatch(messages: seq<Message>)

  /**
   * One `OutputConverter<TInput, T>` of the composite: `Identity` accepts an object of type T
   * itself, `FromText` accepts a string (a string array for an array T) and deserializes it.
   */
  datatype Stage = Identity(target: TriggerType) | FromText(target: TriggerType)

  function CreateConverter(): seq<Stage>
  {
    [Identity(MessageType), FromText(MessageType)]
  }

  function CreateConverterArray(): seq<Stage>
  {
    [Identity(MessageArrayType), FromText(MessageArrayType)]
  }

  /** The constructor picks the array composite exactly when T is an array type. */
  function SelectConverter(t: TriggerType): (stages: seq<Stage>)
    ensures |stages| == 2
    ensures stages[0] == Identity(t) && stages[1] == FromText(t)
    ensures t.IsArray() <==> stages == CreateConverterArray()
  {
    if t.IsArray() then CreateConverterArray() else CreateConverter()
  }

  /** Deserializes each string in turn. */
  function DeserializeEach(deserialize: string -> Message, texts: seq<string>): (messages: seq<Message>)
    ensures |messages| == |texts|
    ensures forall i :: 0 <= i < |texts| ==> messages[i] == deserialize(texts[i])
  {
    if |texts| == 0 then [] else [deserialize(texts[0])] + DeserializeEach(deserialize, texts[1..])
  }

  /** One stage's `TryConvert`: `None` where the object is not of the stage's input type. */
  function ApplyStage(stage: Stage, deserialize: string -> Message, value: RawValue): Option<Converted>
  {
    match (stage, value)
    case (Identity(MessageType), MessageObject(m)) => Some(SingleMessage(m))
    case (Identity(MessageArrayType), MessageArrayObject(ms)) => Some(MessageBatch(ms))
    case (FromText(MessageType), StringObject(s)) => Some(SingleMessage(deserialize(s)))
    case (FromText(MessageArrayType), StringArrayObject(ss)) => Some(MessageBatch(DeserializeEach(deserialize, ss)))
    case _ => None
  }

  /** The composite's `TryConvert`: the result of the first stage that accepts the object. */
  function TryConvert(stages: seq<Stage>, deserialize: string -> Message, value: RawValue): (r: Option<Converted>)
    ensures r.Some? <==> exists i :: 0 <= i < |stages| && ApplyStage(stages[i], deserialize, value).Some?
    ensures r.Some? ==>
              exists i :: && 0 <= i < |stages|
                          && ApplyStage(stages[i], deserialize, value) == r
                          && forall j :: 0 <= j < i ==> ApplyStage(stages[j], deserialize, value).None?
    decreases |stages|
  {
    if |stages| == 0 then None
    else match ApplyStage(stages[0], deserialize, value)
      case Some(c) => Some(c)
      case None =>
        var rest := TryConvert(stages[1..], deserialize, value);
        assert forall i :: 1 <= i < |stages| ==> stages[1..][i - 1] == stages[i];
        rest
  }

  /** A non-array trigger accepts a message as it is and a string through the deserializer, nothing else. */
  lemma ConvertSingle(deserialize: string -> Message, value: RawValue)
    ensures TryConvert(SelectConverter(MessageType), deserialize, value) ==
              match value
              case MessageObject(m) => Some(SingleMessage(m))
              case StringObject(s) => Some(SingleMessage(deserialize(s)))
              case _ => None
  {
    var stages := SelectConverter(MessageType);
    assert stages[1..][0] == FromText(MessageType);
  }

  /**
   * An array trigger accepts a message array as it is and a string array element by element, in
   * order; nothing else.
   */
  lemma ConvertArray(deserialize: string -> Message, value: RawValue)
    ensures TryConvert(SelectConverter(MessageArrayType), deserialize, value) ==
              match value
              case MessageArrayObject(ms) => Some(MessageBatch(ms))
              case StringArrayObject(ss) => Some(MessageBatch(DeserializeEach(deserialize, ss)))
              case _ => None
  {
    var stages := SelectConverter(MessageArrayType);
    assert stages[1..][0] == FromText(MessageArrayType);
  }

  /** What a converter produces has the shape of T. */
  lemma ConvertedHasTriggerType(t: TriggerType, deserialize: string -> Message, value: RawValue)
    requires TryConvert(SelectConverter(t), deserialize, value).Some?
    ensures TryConvert(SelectConverter(t), deserialize, value).value.MessageBatch? <==> t.IsArray()
  {
    if t.IsArray() {
      ConvertArray(deserialize, value);
    } else {
      ConvertSingle(deserialize, value);
    }
  }
}
