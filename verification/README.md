# Service Bus messaging provider and trigger binding, in Dafny

This project models two classes of the Azure WebJobs Service Bus extension and proves
properties of the model.

`MessagingProvider` is the factory for the Azure Service Bus SDK clients:
- message receivers, message senders and client entities;
- message processors and session message processors built on top of them.

It keeps one cache per client kind. Every cache is keyed by `entityPath + "-" + connectionString`.
Its five `Create*` methods reject a null or empty entity path or connection string. The public
`GetOrAddMessageReceiver` checks neither itself; in the model it caches a receiver for `("", "")`
under the key `"-"`. It stamps the configured `PrefetchCount` on every receiver and client entity, but never on a sender. It decides between a
queue client and a subscription client by splitting the entity path on `"/Subscriptions/"`.

`ServiceBusTriggerBinding<T>` turns the object a Service Bus listener hands over into two things:
the function's argument (`T` is `Message` or `Message[]`) and the invocation's binding data.
- Its binding-data contract is fifteen built-in names and their .NET types. The value-type
  argument binding's contract is assigned over them and wins on a clash.
- The binding data is the message's properties under the thirteen message names, each added on
  a best-effort basis, then the listener's receiver and session. The argument binding's own data
  is assigned over that.
- The converter tries the object as `T` itself, then deserializes a string (or a string array)
  into messages.
- The binding remembers the listener it created last. Every later bind reads that listener's
  receiver and session.

Modules, one per concern:

| file | module | models |
|---|---|---|
| Wrappers.dfy | Wrappers | `Option`, `Result`, the two exceptions thrown, `string.IsNullOrEmpty` |
| IgnoreCase.dfy | IgnoreCase | `Dictionary<string, V>` with `StringComparer.OrdinalIgnoreCase`, as a value |
| EntityPath.dfy | EntityPath | `String.Split` on one separator, and the queue / subscription decision |
| MessagingProvider.dfy | Messaging | the `MessagingProvider` class, its caches and the SDK clients as records |
| Message.dfy | ServiceBusMessage | the `Message` the binding reads, and the boxed binding-data values |
| Conversion.dfy | Conversion | the two-stage object-to-`T` converters |
| BindingContract.dfy | BindingContract | `CreateBindingDataContract` |
| BindingData.dfy | BindingData | `CreateBindingData` and `SafeAddValue` |
| TriggerBinding.dfy | TriggerBinding | the `ServiceBusTriggerBinding<T>` class: construction, `BindAsync`, `CreateListenerAsync` |

Some conventions:
- A thrown exception is a `Result.Failure` carrying `ArgumentNull(paramName)` or
  `InvalidOperation(message)`. A null reference is `Option.None`.
- The two classes whose fields change are Dafny classes. `MessagingProvider` has three caches as
  `map` fields. `ServiceBusTriggerBinding` has its `listener` field.
- Code this core calls but does not contain becomes a function value:
  - the string-to-message deserializer;
  - the value-type argument binding's `BindAsync`;
  - the listener factory.

## Model

| member | source | states |
|---|---|---|
| Wrappers.IsNullOrEmpty | src/Microsoft.Azure.WebJobs.Extensions.ServiceBus/MessagingProvider.cs:40-47 | `string.IsNullOrEmpty`: null or the empty string; no contract of its own; properties in ValidateArguments |
| Messaging.CacheKey | src/Microsoft.Azure.WebJobs.Extensions.ServiceBus/MessagingProvider.cs:143 | the cache key `entityPath-connectionString`; no contract of its own; properties in CacheKeyCollision, CacheKeyInjective and DashInLongerPath |
| Messaging.CacheKeyCollision | src/Microsoft.Azure.WebJobs.Extensions.ServiceBus/MessagingProvider.cs:143 | the cache key is ambiguous: the different pairs ("a-b", "c") and ("a", "b-c") share the key "a-b-c" |
| Messaging.CacheKeyInjective | src/Microsoft.Azure.WebJobs.Extensions.ServiceBus/MessagingProvider.cs:143 | when neither entity path holds a dash, equal keys mean equal paths and equal connection strings |
| Messaging.DashInLongerPath | src/Microsoft.Azure.WebJobs.Extensions.ServiceBus/MessagingProvider.cs:143 | of two paths giving one key, the longer path holds a dash |
| Messaging.GetOrAdd | src/Microsoft.Azure.WebJobs.Extensions.ServiceBus/MessagingProvider.cs:143-148 | the key is present afterwards and the returned value is the one stored under it; the keys grow by exactly that key; no existing entry is replaced; a new key stores and returns the candidate |
| Messaging.GetOrAddTwice | src/Microsoft.Azure.WebJobs.Extensions.ServiceBus/MessagingProvider.cs:143-148 | a second GetOrAdd with the same key returns the first call's value and leaves the cache unchanged |
| Messaging.ValidateArguments | src/Microsoft.Azure.WebJobs.Extensions.ServiceBus/MessagingProvider.cs:40-47 | ArgumentNull("entityPath") exactly when the path is null or empty; ArgumentNull("connectionString") exactly when the path is fine and the connection string is null or empty; no error exactly when both are non-empty |
| Messaging.NewClientEntity | src/Microsoft.Azure.WebJobs.Extensions.ServiceBus/MessagingProvider.cs:160-176 | the entity addresses the given path and carries the connection string and prefetch count; it is a subscription client exactly when the path splits on "/Subscriptions/" into two segments, and then its topic and subscription are those segments |
| Messaging.ClientEntityPath | src/Microsoft.Azure.WebJobs.Extensions.ServiceBus/MessagingProvider.cs:164-175 | the entity path a queue or subscription client addresses; no contract of its own; properties in NewClientEntity and the class invariant Valid |
| Messaging.MessagingProvider.constructor | src/Microsoft.Azure.WebJobs.Extensions.ServiceBus/MessagingProvider.cs:18-30 | the options are stored, all three caches start empty, and the cache invariant holds |
| Messaging.MessagingProvider.Create | src/Microsoft.Azure.WebJobs.Extensions.ServiceBus/MessagingProvider.cs:27-30 | fails exactly when the options wrapper or its Value is null, and then with ArgumentNull("serviceBusOptions"); otherwise a fresh provider holding Value with empty caches |
| Messaging.MessagingProvider.NewMessageReceiver | src/Microsoft.Azure.WebJobs.Extensions.ServiceBus/MessagingProvider.cs:145-148 | `new MessageReceiver(connectionString, entityPath)` stamped with the configured PrefetchCount; no contract of its own; properties in GetOrAddMessageReceiver and the class invariant Valid |
| Messaging.MessagingProvider.GetOrAddMessageReceiver | src/Microsoft.Azure.WebJobs.Extensions.ServiceBus/MessagingProvider.cs:141-149 | the receiver cache and the result are GetOrAdd of a receiver for the path and connection stamped with PrefetchCount; the other caches are unchanged; the cache invariant is kept |
| Messaging.MessagingProvider.GetOrAddMessageSender | src/Microsoft.Azure.WebJobs.Extensions.ServiceBus/MessagingProvider.cs:151-155 | the sender cache and the result are GetOrAdd of a sender for the path and connection, which has no prefetch count; the other caches are unchanged |
| Messaging.MessagingProvider.GetOrAddClientEntity | src/Microsoft.Azure.WebJobs.Extensions.ServiceBus/MessagingProvider.cs:157-177 | the entity cache and the result are GetOrAdd of NewClientEntity with PrefetchCount; the result carries PrefetchCount; the other caches are unchanged |
| Messaging.MessagingProvider.CreateMessageProcessor | src/Microsoft.Azure.WebJobs.Extensions.ServiceBus/MessagingProvider.cs:38-50 | a bad argument fails with the ValidateArguments error and changes nothing; otherwise a processor over the cached receiver (GetOrAdd) with the configured MessageHandlerOptions |
| Messaging.MessagingProvider.CreateMessageReceiver | src/Microsoft.Azure.WebJobs.Extensions.ServiceBus/MessagingProvider.cs:61-73 | a bad argument fails with the ValidateArguments error and changes nothing; otherwise the cached receiver (GetOrAdd) |
| Messaging.MessagingProvider.CreateMessageSender | src/Microsoft.Azure.WebJobs.Extensions.ServiceBus/MessagingProvider.cs:84-96 | a bad argument fails with the ValidateArguments error and changes nothing; otherwise the cached sender (GetOrAdd) |
| Messaging.MessagingProvider.CreateClientEntity | src/Microsoft.Azure.WebJobs.Extensions.ServiceBus/MessagingProvider.cs:107-119 | a bad argument fails with the ValidateArguments error and changes nothing; otherwise the cached client entity (GetOrAdd of NewClientEntity) |
| Messaging.MessagingProvider.CreateSessionMessageProcessor | src/Microsoft.Azure.WebJobs.Extensions.ServiceBus/MessagingProvider.cs:127-139 | a bad argument fails with the ValidateArguments error and changes nothing; otherwise a session processor over the cached client entity with the configured SessionHandlerOptions |
| Messaging.ProcessorAndReceiverShareReceiver | src/Microsoft.Azure.WebJobs.Extensions.ServiceBus/MessagingProvider.cs:38-73 | a processor and a receiver asked for with the same arguments share the one receiver cached under their key |
| Messaging.SessionProcessorAndClientEntityShareEntity | src/Microsoft.Azure.WebJobs.Extensions.ServiceBus/MessagingProvider.cs:107-139 | a session processor and a client entity asked for with the same arguments share the one cached client entity |
| Messaging.CollidingKeysShareReceiver | src/Microsoft.Azure.WebJobs.Extensions.ServiceBus/MessagingProvider.cs:141-149 | with colliding keys the second caller gets the receiver built for the first caller's path ("a-b") and connection ("c") |
| EntityPath.Split | src/Microsoft.Azure.WebJobs.Extensions.ServiceBus/MessagingProvider.cs:160 | `String.Split` on one separator, cutting left to right at non-overlapping occurrences; no contract of its own; properties in SplitNonEmpty, JoinSplit, SplitSingle, SplitSegmentsFree, SplitFirstCut and SplitTwo |
| EntityPath.IndexOf | src/Microsoft.Azure.WebJobs.Extensions.ServiceBus/MessagingProvider.cs:160 | a found index is an occurrence at or after the start with none between; no index means no occurrence from the start on |
| EntityPath.SplitNonEmpty | src/Microsoft.Azure.WebJobs.Extensions.ServiceBus/MessagingProvider.cs:160 | a split always yields at least one segment |
| EntityPath.JoinSplit | src/Microsoft.Azure.WebJobs.Extensions.ServiceBus/MessagingProvider.cs:160 | joining the segments with the separator gives back the original string |
| EntityPath.SplitSingle | src/Microsoft.Azure.WebJobs.Extensions.ServiceBus/MessagingProvider.cs:160 | one segment exactly when the separator does not occur, and that segment is the whole string |
| EntityPath.SplitSegmentsFree | src/Microsoft.Azure.WebJobs.Extensions.ServiceBus/MessagingProvider.cs:160 | no segment contains the separator |
| EntityPath.SplitFirstCut | src/Microsoft.Azure.WebJobs.Extensions.ServiceBus/MessagingProvider.cs:160 | the split is the text before the first occurrence followed by the split of what follows that occurrence |
| EntityPath.SplitTwoShape | src/Microsoft.Azure.WebJobs.Extensions.ServiceBus/MessagingProvider.cs:160-161 | a two-segment split is first + separator + second, with no occurrence starting inside the first segment and none in the second |
| EntityPath.SplitOfTwo | src/Microsoft.Azure.WebJobs.Extensions.ServiceBus/MessagingProvider.cs:160-161 | `a + sep + b` splits into [a, b] when no occurrence starts inside `a` and none lies in `b` |
| EntityPath.SplitTwo | src/Microsoft.Azure.WebJobs.Extensions.ServiceBus/MessagingProvider.cs:160-161 | a string splits into exactly [a, b] if and only if it is `a + sep + b`, with no occurrence starting inside `a` and none in `b` |
| EntityPath.SplitTwoOccurrences | src/Microsoft.Azure.WebJobs.Extensions.ServiceBus/MessagingProvider.cs:160-161 | two non-overlapping occurrences give at least three segments |
| EntityPath.Join | src/Microsoft.Azure.WebJobs.Extensions.ServiceBus/MessagingProvider.cs:160 | `string.Join` of segments with the separator, the inverse of Split; no contract of its own; properties in JoinSplit |
| EntityPath.ParseEntityPath | src/Microsoft.Azure.WebJobs.Extensions.ServiceBus/MessagingProvider.cs:160-176 | a queue keeps the unmodified path; a subscription's path is topic + "/Subscriptions/" + subscription |
| EntityPath.PathOf | src/Microsoft.Azure.WebJobs.Extensions.ServiceBus/MessagingProvider.cs:160-176 | the path a queue or subscription addresses; no contract of its own; properties in PathOfParse |
| EntityPath.PathOfParse | src/Microsoft.Azure.WebJobs.Extensions.ServiceBus/MessagingProvider.cs:160-176 | the kind chosen addresses the very path it came from |
| EntityPath.SubscriptionIff | src/Microsoft.Azure.WebJobs.Extensions.ServiceBus/MessagingProvider.cs:160-167 | the subscription branch yields (topic, subscription) if and only if the path is topic + "/Subscriptions/" + subscription, with no marker starting inside the topic (even one running into the marker) and none in the subscription |
| EntityPath.NoMarkerIsQueue | src/Microsoft.Azure.WebJobs.Extensions.ServiceBus/MessagingProvider.cs:170-175 | a path without "/Subscriptions/" is a queue on that path |
| EntityPath.TwoMarkersIsQueue | src/Microsoft.Azure.WebJobs.Extensions.ServiceBus/MessagingProvider.cs:161-175 | a path with two non-overlapping markers is a queue on the unmodified path |
| EntityPath.QueueExample | src/Microsoft.Azure.WebJobs.Extensions.ServiceBus/MessagingProvider.cs:170-175 | "orders" is a queue on "orders" |
| EntityPath.SubscriptionExample | src/Microsoft.Azure.WebJobs.Extensions.ServiceBus/MessagingProvider.cs:161-167 | "orders/Subscriptions/billing" is subscription "billing" of topic "orders" |
| EntityPath.EmptyTopicExample | src/Microsoft.Azure.WebJobs.Extensions.ServiceBus/MessagingProvider.cs:160-167 | "/Subscriptions/x" is subscription "x" of the empty topic |
| EntityPath.TwoMarkersExample | src/Microsoft.Azure.WebJobs.Extensions.ServiceBus/MessagingProvider.cs:160-175 | "a/Subscriptions/b/Subscriptions/c" is a queue on the whole path |
| EntityPath.OverlappingMarkersExample | src/Microsoft.Azure.WebJobs.Extensions.ServiceBus/MessagingProvider.cs:160-167 | "t/Subscriptions/Subscriptions/u" is subscription "Subscriptions/u" of topic "t", since the second marker overlaps the first |
| IgnoreCase.ToUpper | src/Microsoft.Azure.WebJobs.Extensions.ServiceBus/Triggers/ServiceBusTriggerBinding.cs:96 | ordinal upper-casing of one character, ASCII letters only; no contract of its own; properties in Fold and FoldIdempotent |
| IgnoreCase.Fold | src/Microsoft.Azure.WebJobs.Extensions.ServiceBus/Triggers/ServiceBusTriggerBinding.cs:96 | the normal form under `StringComparer.OrdinalIgnoreCase` (also at line 127): same length, each character upper-cased |
| IgnoreCase.EqualsIgnoreCase | src/Microsoft.Azure.WebJobs.Extensions.ServiceBus/Triggers/ServiceBusTriggerBinding.cs:96 | two names compare equal under `OrdinalIgnoreCase` exactly when their folded forms are equal; no contract of its own; properties in NoNamesDifferOnlyByCase and FieldKeyInjective |
| IgnoreCase.Lookup | src/Microsoft.Azure.WebJobs.Extensions.ServiceBus/Triggers/ServiceBusTriggerBinding.cs:127 | reading a name, in any casing, from an ignore-case dictionary; no contract of its own; properties in Insert, OverlayLastWins and OverlayUntouched |
| IgnoreCase.FoldIdempotent | src/Microsoft.Azure.WebJobs.Extensions.ServiceBus/Triggers/ServiceBusTriggerBinding.cs:96 | a folded name is its own normal form under the ignore-case comparer |
| IgnoreCase.NoNamesDifferOnlyByCase | src/Microsoft.Azure.WebJobs.Extensions.ServiceBus/Triggers/ServiceBusTriggerBinding.cs:96 | no two names stored in an ignore-case dictionary are equal ignoring case |
| IgnoreCase.Insert | src/Microsoft.Azure.WebJobs.Extensions.ServiceBus/Triggers/ServiceBusTriggerBinding.cs:118 | assigning through the indexer binds the name (in any casing) to the value, adds only that key, keeps a spelling already stored and leaves other entries alone |
| IgnoreCase.Add | src/Microsoft.Azure.WebJobs.Extensions.ServiceBus/Triggers/ServiceBusTriggerBinding.cs:97-111 | `Dictionary.Add` of a name not present in any casing; no contract of its own; properties in AddFacts |
| IgnoreCase.AddFacts | src/Microsoft.Azure.WebJobs.Extensions.ServiceBus/Triggers/ServiceBusTriggerBinding.cs:97-111 | an Add of an absent name stores it under its own spelling, adds only that key and keeps every other entry |
| IgnoreCase.TryAdd | src/Microsoft.Azure.WebJobs.Extensions.ServiceBus/Triggers/ServiceBusTriggerBinding.cs:160-171 | `Add` with its exception swallowed; no contract of its own; properties in TryAddFacts |
| IgnoreCase.TryAddFacts | src/Microsoft.Azure.WebJobs.Extensions.ServiceBus/Triggers/ServiceBusTriggerBinding.cs:160-171 | an Add whose exception is swallowed changes nothing when the name is present and otherwise adds just that name |
| IgnoreCase.NamesOf | src/Microsoft.Azure.WebJobs.Extensions.ServiceBus/Triggers/ServiceBusTriggerBinding.cs:115 | the folded names of the pairs a `foreach` enumerates; no contract of its own; properties in NamesOfMember and OverlayKeys |
| IgnoreCase.NamesOfMember | src/Microsoft.Azure.WebJobs.Extensions.ServiceBus/Triggers/ServiceBusTriggerBinding.cs:115 | a key is among the names of the items exactly when some item's name folds to it |
| IgnoreCase.Overlay | src/Microsoft.Azure.WebJobs.Extensions.ServiceBus/Triggers/ServiceBusTriggerBinding.cs:113-120 | the `foreach` assignment loop (also at lines 148-155) as a function; no contract of its own; properties in OverlayWellKeyed, OverlayKeys, OverlayLastWins, OverlayUntouched, OverlayKeepsNames and SetAll |
| IgnoreCase.OverlayWellKeyed | src/Microsoft.Azure.WebJobs.Extensions.ServiceBus/Triggers/ServiceBusTriggerBinding.cs:113-120 | the assignment loop keeps every entry under the folded form of its stored name |
| IgnoreCase.OverlayKeys | src/Microsoft.Azure.WebJobs.Extensions.ServiceBus/Triggers/ServiceBusTriggerBinding.cs:113-120 | the assignment loop adds exactly the items' names |
| IgnoreCase.OverlayLastWins | src/Microsoft.Azure.WebJobs.Extensions.ServiceBus/Triggers/ServiceBusTriggerBinding.cs:113-120 | the last item naming a key, in any casing, decides its value |
| IgnoreCase.OverlayUntouched | src/Microsoft.Azure.WebJobs.Extensions.ServiceBus/Triggers/ServiceBusTriggerBinding.cs:113-120 | a key no item names keeps its entry, its stored name and its value |
| IgnoreCase.OverlayKeepsNames | src/Microsoft.Azure.WebJobs.Extensions.ServiceBus/Triggers/ServiceBusTriggerBinding.cs:113-120 | the assignment loop never renames a key already present |
| IgnoreCase.SetAll | src/Microsoft.Azure.WebJobs.Extensions.ServiceBus/Triggers/ServiceBusTriggerBinding.cs:148-155 | the foreach loop computes the overlay of the items on the dictionary and keeps it well keyed |
| Conversion.CreateConverter | src/Microsoft.Azure.WebJobs.Extensions.ServiceBus/Triggers/ServiceBusTriggerBinding.cs:183-188 | the Message composite: identity, then from text; no contract of its own; properties in SelectConverter and ConvertSingle |
| Conversion.CreateConverterArray | src/Microsoft.Azure.WebJobs.Extensions.ServiceBus/Triggers/ServiceBusTriggerBinding.cs:190-195 | the Message[] composite: identity, then from a string array; no contract of its own; properties in SelectConverter and ConvertArray |
| Conversion.SelectConverter | src/Microsoft.Azure.WebJobs.Extensions.ServiceBus/Triggers/ServiceBusTriggerBinding.cs:37 | two stages, identity on T then from-text to T; the array composite exactly when T is an array type |
| Conversion.DeserializeEach | src/Microsoft.Azure.WebJobs.Extensions.ServiceBus/Triggers/ServiceBusTriggerBinding.cs:194 | one message per string, each the deserialization of the string at the same index |
| Conversion.ApplyStage | src/Microsoft.Azure.WebJobs.Extensions.ServiceBus/Triggers/ServiceBusTriggerBinding.cs:185-194 | one `OutputConverter` stage: accepts only its input type; no contract of its own; properties in TryConvert, ConvertSingle and ConvertArray |
| Conversion.TryConvert | src/Microsoft.Azure.WebJobs.Extensions.ServiceBus/Triggers/ServiceBusTriggerBinding.cs:183-195 | converts exactly when some stage accepts the object, and then gives the result of the first stage that does |
| Conversion.ConvertSingle | src/Microsoft.Azure.WebJobs.Extensions.ServiceBus/Triggers/ServiceBusTriggerBinding.cs:183-188 | the Message converter passes a message through, deserializes a string, and rejects anything else |
| Conversion.ConvertArray | src/Microsoft.Azure.WebJobs.Extensions.ServiceBus/Triggers/ServiceBusTriggerBinding.cs:190-195 | the Message[] converter passes a message array through, deserializes a string array element by element in order, and rejects anything else |
| Conversion.ConvertedHasTriggerType | src/Microsoft.Azure.WebJobs.Extensions.ServiceBus/Triggers/ServiceBusTriggerBinding.cs:37 | a converted value is a batch exactly when T is an array type |
| BindingContract.FieldAt | src/Microsoft.Azure.WebJobs.Extensions.ServiceBus/Triggers/ServiceBusTriggerBinding.cs:97-111 | the fifteen built-in names in the order they are added (the same order at lines 131-146); no contract of its own; properties in Position and PositionOfFieldAt |
| BindingContract.FieldName | src/Microsoft.Azure.WebJobs.Extensions.ServiceBus/Triggers/ServiceBusTriggerBinding.cs:97-111 | the spelling each built-in name is added under; no contract of its own; properties in FieldKeyInjective, AddFieldsContents and BuiltInSpellingKept |
| BindingContract.FieldType | src/Microsoft.Azure.WebJobs.Extensions.ServiceBus/Triggers/ServiceBusTriggerBinding.cs:97-111 | the .NET type the contract declares for each built-in name; no contract of its own; properties in AddFieldsContents, FixedContractContents and ProducedHasDeclaredType |
| BindingContract.FieldKey | src/Microsoft.Azure.WebJobs.Extensions.ServiceBus/Triggers/ServiceBusTriggerBinding.cs:97-111 | the key a built-in name is stored under in an ignore-case dictionary; no contract of its own; properties in FieldKeyInjective and FieldKeysDistinct |
| BindingContract.Position | src/Microsoft.Azure.WebJobs.Extensions.ServiceBus/Triggers/ServiceBusTriggerBinding.cs:97-111 | every built-in name has one place among the fifteen adds; the thirteen message names come first |
| BindingContract.PositionOfFieldAt | src/Microsoft.Azure.WebJobs.Extensions.ServiceBus/Triggers/ServiceBusTriggerBinding.cs:97-111 | the order of the adds has no repeats |
| BindingContract.FieldKeyInjective | src/Microsoft.Azure.WebJobs.Extensions.ServiceBus/Triggers/ServiceBusTriggerBinding.cs:97-111 | two built-in names are equal ignoring case if and only if they are the same name |
| BindingContract.FieldKeysDistinct | src/Microsoft.Azure.WebJobs.Extensions.ServiceBus/Triggers/ServiceBusTriggerBinding.cs:97-111 | no two of the fifteen built-in names are equal ignoring case, so no Add throws |
| BindingContract.NextKeyFresh | src/Microsoft.Azure.WebJobs.Extensions.ServiceBus/Triggers/ServiceBusTriggerBinding.cs:97-111 | each Add's name is absent from what the earlier Adds stored |
| BindingContract.KeysBeforeNext | src/Microsoft.Azure.WebJobs.Extensions.ServiceBus/Triggers/ServiceBusTriggerBinding.cs:97-111 | one more Add adds one more built-in key |
| BindingContract.AddFields | src/Microsoft.Azure.WebJobs.Extensions.ServiceBus/Triggers/ServiceBusTriggerBinding.cs:97-111 | after the first n Adds the keys are exactly those of the first n built-in names |
| BindingContract.AddFieldsContents | src/Microsoft.Azure.WebJobs.Extensions.ServiceBus/Triggers/ServiceBusTriggerBinding.cs:97-111 | after the first n Adds each of those names is stored under its own spelling with its own type |
| BindingContract.FixedContract | src/Microsoft.Azure.WebJobs.Extensions.ServiceBus/Triggers/ServiceBusTriggerBinding.cs:96-111 | the dictionary the fifteen Adds build; no contract of its own; properties in FixedContractContents |
| BindingContract.FixedContractContents | src/Microsoft.Azure.WebJobs.Extensions.ServiceBus/Triggers/ServiceBusTriggerBinding.cs:96-111 | the fixed contract holds exactly the fifteen names, each with its own spelling and type |
| BindingContract.ContractSpec | src/Microsoft.Azure.WebJobs.Extensions.ServiceBus/Triggers/ServiceBusTriggerBinding.cs:94-123 | the contract: the fixed entries overlaid by the argument binding's contract when it is not null; no contract of its own; properties in CreateBindingDataContract, ContractKeys, BuiltInTypeKept, ArgumentTypeWins and BuiltInSpellingKept |
| BindingContract.ArgumentNames | src/Microsoft.Azure.WebJobs.Extensions.ServiceBus/Triggers/ServiceBusTriggerBinding.cs:113-120 | the folded names a possibly-null argument dictionary contributes; no contract of its own; properties in ContractKeys and NoMessageBindingDataKeys |
| BindingContract.CreateBindingDataContract | src/Microsoft.Azure.WebJobs.Extensions.ServiceBus/Triggers/ServiceBusTriggerBinding.cs:94-123 | the method builds the fixed contract and assigns the argument contract over it (when not null); the result is well keyed |
| BindingContract.ContractKeys | src/Microsoft.Azure.WebJobs.Extensions.ServiceBus/Triggers/ServiceBusTriggerBinding.cs:94-123 | the contract binds exactly the fifteen built-in names and the argument contract's names |
| BindingContract.BuiltInTypeKept | src/Microsoft.Azure.WebJobs.Extensions.ServiceBus/Triggers/ServiceBusTriggerBinding.cs:97-120 | a built-in name the argument contract does not redefine keeps its built-in type |
| BindingContract.ArgumentTypeWins | src/Microsoft.Azure.WebJobs.Extensions.ServiceBus/Triggers/ServiceBusTriggerBinding.cs:113-120 | on a clash the argument contract's type wins: the last pair naming a key, in any casing, decides its type |
| BindingContract.BuiltInSpellingKept | src/Microsoft.Azure.WebJobs.Extensions.ServiceBus/Triggers/ServiceBusTriggerBinding.cs:97-120 | a built-in name stays spelled as in the source even when its type is overridden |
| BindingData.BoxedInt32 | src/Microsoft.Azure.WebJobs.Extensions.ServiceBus/Triggers/ServiceBusTriggerBinding.cs:131 | a returned `int` getter boxed, or nothing when it throws; no contract of its own; properties in MessagePropertyBound |
| BindingData.BoxedInt64 | src/Microsoft.Azure.WebJobs.Extensions.ServiceBus/Triggers/ServiceBusTriggerBinding.cs:139 | a returned `long` getter boxed, or nothing when it throws; no contract of its own; properties in MessagePropertyBound |
| BindingData.BoxedString | src/Microsoft.Azure.WebJobs.Extensions.ServiceBus/Triggers/ServiceBusTriggerBinding.cs:132-142 | a returned string getter boxed (null stays null), or nothing when it throws; no contract of its own; properties in MessagePropertyBound |
| BindingData.BoxedDateTime | src/Microsoft.Azure.WebJobs.Extensions.ServiceBus/Triggers/ServiceBusTriggerBinding.cs:134-135 | a returned `DateTime` getter boxed, or nothing when it throws; no contract of its own; properties in MessagePropertyBound |
| BindingData.LockTokenValue | src/Microsoft.Azure.WebJobs.Extensions.ServiceBus/Triggers/ServiceBusTriggerBinding.cs:133 | the lock token when one is set, otherwise ""; no contract of its own; properties in LockTokenBound |
| BindingData.Read | src/Microsoft.Azure.WebJobs.Extensions.ServiceBus/Triggers/ServiceBusTriggerBinding.cs:131-143 | what each message getter returns, or nothing when it throws; no contract of its own; properties in MessagePropertyBound and ProducedHasDeclaredType |
| BindingData.Produced | src/Microsoft.Azure.WebJobs.Extensions.ServiceBus/Triggers/ServiceBusTriggerBinding.cs:131-146 | what each `SafeAddValue` lambda yields: a message property only with a message, the receiver and session always; no contract of its own; properties in BuiltInBound, ReceiverAndSessionBound and ProducedHasDeclaredType |
| BindingData.Producer | src/Microsoft.Azure.WebJobs.Extensions.ServiceBus/Triggers/ServiceBusTriggerBinding.cs:131-146 | the fifteen lambdas of one invocation as one function; no contract of its own; properties in BuiltInData |
| BindingData.SafeAdd | src/Microsoft.Azure.WebJobs.Extensions.ServiceBus/Triggers/ServiceBusTriggerBinding.cs:160-171 | `SafeAddValue` around one `Add`; no contract of its own; properties in SafeAddFresh |
| BindingData.AddFirst | src/Microsoft.Azure.WebJobs.Extensions.ServiceBus/Triggers/ServiceBusTriggerBinding.cs:129-146 | the first n best-effort adds in source order; no contract of its own; properties in AddFirstContents |

| BindingData.SafeAddFresh | src/Microsoft.Azure.WebJobs.Extensions.ServiceBus/Triggers/ServiceBusTriggerBinding.cs:160-171 | a best-effort add of an absent name binds it to what the getter returned (nothing when it threw) and leaves every other entry alone |
| BindingData.AddStep | src/Microsoft.Azure.WebJobs.Extensions.ServiceBus/Triggers/ServiceBusTriggerBinding.cs:129-146 | one more best-effort add keeps the invariant: only produced built-in names, each bound as produced and spelled as in the source |
| BindingData.AddFirstContents | src/Microsoft.Azure.WebJobs.Extensions.ServiceBus/Triggers/ServiceBusTriggerBinding.cs:129-146 | after the first n best-effort adds exactly those names whose value was produced are bound, each to that value and under its own spelling |
| BindingData.BuiltInData | src/Microsoft.Azure.WebJobs.Extensions.ServiceBus/Triggers/ServiceBusTriggerBinding.cs:127-146 | the built-in data after all fifteen best-effort adds satisfies that invariant |
| BindingData.BuiltInBound | src/Microsoft.Azure.WebJobs.Extensions.ServiceBus/Triggers/ServiceBusTriggerBinding.cs:129-146 | each built-in name is bound to what its add produced and is absent when nothing was |
| BindingData.BuiltInKeys | src/Microsoft.Azure.WebJobs.Extensions.ServiceBus/Triggers/ServiceBusTriggerBinding.cs:129-146 | a key is bound exactly when it is a built-in name whose value was produced, and it is spelled as in the source |
| BindingData.BindingDataSpec | src/Microsoft.Azure.WebJobs.Extensions.ServiceBus/Triggers/ServiceBusTriggerBinding.cs:125-158 | the binding data: the built-in entries overlaid by the value type's data when it is not null; no contract of its own; properties in CreateBindingData, ValueTypeDataWins, BuiltInDataKept, BoundNamesDeclared and NoMessageBindingDataKeys |
| BindingData.CreateBindingData | src/Microsoft.Azure.WebJobs.Extensions.ServiceBus/Triggers/ServiceBusTriggerBinding.cs:125-158 | the method computes the built-in data with the value type's data (when not null) assigned over it; the result is well keyed |
| BindingData.MessagePropertyBound | src/Microsoft.Azure.WebJobs.Extensions.ServiceBus/Triggers/ServiceBusTriggerBinding.cs:129-144 | with a message, each message name is bound to what its getter returned and is missing when the getter threw |
| BindingData.LockTokenBound | src/Microsoft.Azure.WebJobs.Extensions.ServiceBus/Triggers/ServiceBusTriggerBinding.cs:133 | LockToken is "" when no lock token is set and the token when one is |
| BindingData.ReceiverAndSessionBound | src/Microsoft.Azure.WebJobs.Extensions.ServiceBus/Triggers/ServiceBusTriggerBinding.cs:145-146 | MessageReceiver and MessageSession are always bound, to null when there is none |
| BindingData.NoMessageBindsOnlyReceiverAndSession | src/Microsoft.Azure.WebJobs.Extensions.ServiceBus/Triggers/ServiceBusTriggerBinding.cs:129-146 | without a message exactly MessageReceiver and MessageSession are bound |
| BindingData.NoMessageBindingDataKeys | src/Microsoft.Azure.WebJobs.Extensions.ServiceBus/Triggers/ServiceBusTriggerBinding.cs:127-157 | with a null message a name is bound exactly when it is MessageReceiver, MessageSession or one of the value type's names (none when its data is null) |
| BindingData.BuiltInNamesDeclared | src/Microsoft.Azure.WebJobs.Extensions.ServiceBus/Triggers/ServiceBusTriggerBinding.cs:97-146 | every name the built-in data binds is declared by the fixed contract |
| BindingData.HasType | src/Microsoft.Azure.WebJobs.Extensions.ServiceBus/Triggers/ServiceBusTriggerBinding.cs:97-111 | whether a bound object has the declared .NET type, null having every reference type; no contract of its own; properties in ProducedHasDeclaredType and BuiltInDataKept |
| BindingData.ProducedHasDeclaredType | src/Microsoft.Azure.WebJobs.Extensions.ServiceBus/Triggers/ServiceBusTriggerBinding.cs:97-146 | what each best-effort add produces has the type the contract declares for that name |
| BindingData.ValueTypeDataWins | src/Microsoft.Azure.WebJobs.Extensions.ServiceBus/Triggers/ServiceBusTriggerBinding.cs:148-155 | on a clash the value type's data wins: the last pair naming a key, in any casing, decides its value |
| BindingData.BuiltInDataKept | src/Microsoft.Azure.WebJobs.Extensions.ServiceBus/Triggers/ServiceBusTriggerBinding.cs:129-155 | a built-in name the value type does not redefine keeps what its add produced, which has the declared type |
| BindingData.BoundNamesDeclared | src/Microsoft.Azure.WebJobs.Extensions.ServiceBus/Triggers/ServiceBusTriggerBinding.cs:94-155 | every bound name is declared by the contract, provided the value type declares every name it binds |
| TriggerBinding.AsMessage | src/Microsoft.Azure.WebJobs.Extensions.ServiceBus/Triggers/ServiceBusTriggerBinding.cs:70 | `as Message` gives a message exactly for a single-message T, and then that very message |
| TriggerBinding.ReceiverOf | src/Microsoft.Azure.WebJobs.Extensions.ServiceBus/Triggers/ServiceBusTriggerBinding.cs:70 | `_listener?.Receiver`: null without a listener; no contract of its own; properties in ListenerBound and CreateListenerThenBind |
| TriggerBinding.SessionOf | src/Microsoft.Azure.WebJobs.Extensions.ServiceBus/Triggers/ServiceBusTriggerBinding.cs:70 | `_listener?.MessageSession`: null without a listener; no contract of its own; properties in ListenerBound and CreateListenerThenBind |
| TriggerBinding.ServiceBusTriggerBinding.constructor | src/Microsoft.Azure.WebJobs.Extensions.ServiceBus/Triggers/ServiceBusTriggerBinding.cs:33-43 | the arguments are stored; the converter suits T; the contract is CreateBindingDataContract of the argument contract; no listener yet |
| TriggerBinding.ServiceBusTriggerBinding.TriggerValueType | src/Microsoft.Azure.WebJobs.Extensions.ServiceBus/Triggers/ServiceBusTriggerBinding.cs:45-51 | T, the type the converter produces: the array composite exactly when T is an array |
| TriggerBinding.ServiceBusTriggerBinding.BindingDataContract | src/Microsoft.Azure.WebJobs.Extensions.ServiceBus/Triggers/ServiceBusTriggerBinding.cs:53-56 | the contract built at construction from the argument contract, well keyed |
| TriggerBinding.ServiceBusTriggerBinding.BindAsync | src/Microsoft.Azure.WebJobs.Extensions.ServiceBus/Triggers/ServiceBusTriggerBinding.cs:58-78 | the bind reads the stored listener: a null object or a failed conversion throws InvalidOperation; otherwise the argument binding's value provider and CreateBindingData's result |
| TriggerBinding.ServiceBusTriggerBinding.CreateListenerAsync | src/Microsoft.Azure.WebJobs.Extensions.ServiceBus/Triggers/ServiceBusTriggerBinding.cs:80-92 | a null context throws ArgumentNull("context") and leaves the listener alone; otherwise the factory's listener is stored and returned |
| TriggerBinding.Bind | src/Microsoft.Azure.WebJobs.Extensions.ServiceBus/Triggers/ServiceBusTriggerBinding.cs:58-78 | the value of a bind, given the stored listener; no contract of its own; properties in BindFailsIff, BindKeeps, MessagePropertiesBound, BatchBindsNoMessageProperties, ListenerBound and BoundNamesInContract |
| TriggerBinding.BindFailsIff | src/Microsoft.Azure.WebJobs.Extensions.ServiceBus/Triggers/ServiceBusTriggerBinding.cs:62-75 | given that the deserializer and the argument binding return, a bind fails exactly when the object is null or no stage converts it, always with InvalidOperation("Unable to convert trigger to Message.") |
| TriggerBinding.MessagePropertiesBound | src/Microsoft.Azure.WebJobs.Extensions.ServiceBus/Triggers/ServiceBusTriggerBinding.cs:65-70 | binding a message to a Message trigger binds each message name to its getter's result, unless the argument binding's data redefines it |
| TriggerBinding.BatchBindsNoMessageProperties | src/Microsoft.Azure.WebJobs.Extensions.ServiceBus/Triggers/ServiceBusTriggerBinding.cs:65-70 | for a Message[] trigger no message name is bound, unless the argument binding's data supplies it |
| TriggerBinding.ListenerBound | src/Microsoft.Azure.WebJobs.Extensions.ServiceBus/Triggers/ServiceBusTriggerBinding.cs:70 | MessageReceiver and MessageSession are bound to the stored listener's receiver and session, null before any listener, unless the argument binding's data redefines them |
| TriggerBinding.BindKeeps | src/Microsoft.Azure.WebJobs.Extensions.ServiceBus/Triggers/ServiceBusTriggerBinding.cs:65-77 | a converted value always binds, and every built-in name the argument binding's data leaves alone holds what its add produced |
| TriggerBinding.BoundNamesInContract | src/Microsoft.Azure.WebJobs.Extensions.ServiceBus/Triggers/ServiceBusTriggerBinding.cs:39 | every name a successful bind binds is declared by the binding's contract, provided the argument binding declares every name it binds |
| TriggerBinding.CreateListenerThenBind | src/Microsoft.Azure.WebJobs.Extensions.ServiceBus/Triggers/ServiceBusTriggerBinding.cs:70-89 | a bind after CreateListenerAsync binds the created listener's receiver and session |

## Left out

- MethodInvokerWithReturnValue (src/Microsoft.Azure.WebJobs.Host/Executors/MethodInvokerWithReturnValue.cs) is not part of this model: it is context and is not called by either class.
- Construction of the Azure SDK clients is not modelled. A receiver, sender or client entity is a record of the arguments it is built from.
- `GetOrAdd` builds the losing candidate client eagerly in the source. The model never keeps that instance, and building it has no effect the model can see.
- Concurrency is not modelled. Each `ConcurrentDictionary` is a `map` field updated one call at a time.
- `async`/`await` and the `CancellationToken` passed to the listener factory are not modelled. Every operation runs to completion.
- `ToParameterDescriptor` and the parameter display hints (ServiceBusTriggerBinding.cs:173-181) are left out: they only describe the binding for dashboards.
- The string-to-message deserializer built from `parameterType` is a function parameter. So are the value-type argument binding's `BindAsync` and the listener factory. `parameterType` reaches the model only through that deserializer.
- `ServiceBusListenerFactory` and the listener itself are not modelled. A listener is a record of its receiver and session.
  That record is frozen when the listener is created: the source reads the live `_listener?.Receiver` and
  `_listener?.MessageSession` at every bind (ServiceBusTriggerBinding.cs:70), so a listener whose receiver or session
  changes after creation is not captured. `ListenerInputs` also leaves out the `_messagingProvider` that
  ServiceBusTriggerBinding.cs:87 passes to the factory, since the factory is a function value here.
- Conversion.DeserializeEach: the array stage's deserializer, `StringTodMessageConverterFactory.CreateAsMultiple(parameterType)`
  (ServiceBusTriggerBinding.cs:194), is code this model does not see. The model assumes it applies the single-message
  deserializer to each string in order, so ConvertArray's element-by-element result rests on that assumption.
- `DateTime`, `IDictionary<string, object>` (the user properties) and `IMessageSession` are opaque records: the core only stores them.
- Ignore-case comparison folds ASCII letters only. Ordinal upper-casing of other scripts is not modelled.
- Exceptions and null results from code this model does not see are not modelled. `BindAsync` also
  fails in the source when the string deserializer throws inside the converter (lines 187 and 194),
  when the argument binding's `BindAsync` throws (line 69), and with a NullReferenceException when
  `_argumentBinding as ITriggerDataArgumentBinding<T>` or the returned `triggerData` is null (lines 69-70).
  In the model the deserializer and the argument binding are total functions, so BindFailsIff holds only
  given that they return.
- Object identity is modelled by value: "the same cached receiver" is equality of records.
- Dictionaries are values, not shared objects. A dictionary the binding returns cannot be mutated afterwards.
- The enumeration order of the argument binding's dictionaries is a sequence. The model proves that the last pair naming a key wins, whatever that order is.
- The fifteen straight-line `Add` and `SafeAddValue` calls are a recursion over the source order (AddFields, AddFirst). The order and each name, type and getter are those of the source.
- A message property getter that throws is modelled as a missing value. Which getters throw for which message state is an SDK matter and is not modelled.
- `Add` on a name already present in any casing throws `ArgumentException`. The contract code is proved never to do this (FieldKeysDistinct), so that exception has no model of its own.
- The Azure SDK client constructors' own argument checks are not modelled. For example,
  `new MessageReceiver(connectionString, entityPath)` at MessagingProvider.cs:145 is built before
  `GetOrAdd` runs, and may reject an empty connection string. Null arguments to the public
  `GetOrAddMessageReceiver` are not modelled either: its parameters are plain strings, while the
  source's string interpolation would turn a null into "".
- `ServiceBusOptions.PrefetchCount` is a `nat`. The SDK's rejection of a negative prefetch count is not modelled.
- The cache-key ambiguity is kept as it is in the source, not corrected: two different (path, connection) pairs can share a cache entry (CacheKeyCollision, CollidingKeysShareReceiver).
