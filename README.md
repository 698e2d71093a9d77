# laravel-rabbitmq: configuration and orchestration, modelled in Dafny

This project models the configuration and orchestration layer of the
laravel-rabbitmq package. It proves properties of that model:

- the normalisation of the package configuration (`ConfigHelper`);
- the two generations of `AMQPConnection`, with their details, validation,
  and lazily opened connection and channel;
- the alias registry (`Container`);
- the resolution of a configuration into a registry (`ContainerBuilder`);
- queue and exchange entities and the factory that makes them;
- publishing, message processing and the durability flag;
- consumer setup and its wait loop;
- the batch `rabbitmq:setup` and `rabbitmq:delete-all` console commands.

The RabbitMQ broker is not modelled. What the package sends it is a trace
(`Broker.Wire.log`) of opaque AMQP 0-9-1 verbs (`QueueDeclare`, `QueueBind`,
`BasicPublish`, `BasicAck`, ...), in the order they are issued. How the
broker answers the verb at trace position `i` is an oracle `respond(i)`. The
answer is one of four statuses:

- `Returned`;
- `ChannelFault`, standing for `AMQPProtocolChannelException`;
- `OtherException`, any other `\Exception`;
- `EngineError`, a PHP `\Error` that no `catch (\Exception)` handles.

Modules follow the source files:

| module | source |
|---|---|
| `Php` | PHP ordered arrays (`Array<V>`: keys in insertion order plus a map), `isset`, `array_merge`; `Option`, `Result` |
| `Broker` | the trace, the oracle and the transport events of opening a connection and a channel |
| `Config` | src/ConfigHelper.php |
| `Connection` | src/AMQPConnection.php |
| `LegacyConnection` | src/Connection/AMQPConnection.php |
| `Registry` | src/Container.php |
| `Builder` | src/Builder/ContainerBuilder.php |
| `Entities`, `QueueEntity`, `ExchangeEntity`, `EntityFactory` | src/Entity/ |
| `Publishing` | src/Publisher/Publisher.php |
| `Processor` | src/Processor/AbstractMessageProcessor.php |
| `Interpreter` | src/Interpreter/EntityArgumentsInterpreter.php |
| `Consuming` | src/Consumer/Consumer.php |
| `Commands` | src/Command/SetupCommand.php, src/Command/DeleteAllCommand.php |

The form follows the source.

- **Loops.** Each loop in the source is a method with a `while` loop. Each
  method is proved equal to a specification function:
  - `AddKeyOnEntries` to `Filled`;
  - `CreateConnections` to `Connections`;
  - `CreateEntities` to `BuiltEntities`;
  - `RegisterPublishers` to `Publishers`;
  - `CreateEach` and `TryEach` to `Phase`.

  The properties of the source are then lemmas about those functions.
- **Classes.** Objects whose fields change are classes, with `modifies`
  clauses. These are the connections, the container, the processor and the
  commands.
- **Values.** The entity record is a datatype, and so is the configuration.

## Model

| member | source | states |
|---|---|---|
| Config.AddMainKeys | src/ConfigHelper.php:37-55 | all five root sections end up set, each to its old value when it was set and to `[]` when missing or null; no other key changes; a configuration that already had all five comes back unchanged |
| Config.AddKeyOnEntries | src/ConfigHelper.php:62-72 | the `foreach` that writes entries back computes `Filled`: one turn per alias, each turn reading the original entry |
| Config.AddAttributesOnEntities | src/ConfigHelper.php:62-72 | every queue or exchange entry gets `attributes` defaulted to `[]` |
| Config.AddPrefetchOnConsumers | src/ConfigHelper.php:80-91 | every consumer entry gets `prefetch_count` defaulted to 1 |
| Config.FilledEntries | src/ConfigHelper.php:64-70 | after the loop the aliases and their order are unchanged, every entry has the key set, and each entry is the old one when the key was set and otherwise the old one plus the default (null counts as missing) |
| Config.WithKeyKeeps | src/ConfigHelper.php:65-69 | an entry whose key is set is left as it is; otherwise only that key is added, and every other key of the entry keeps its value |
| Config.FilledUpToKeys | src/ConfigHelper.php:64-71 | the loop adds and removes no alias at any turn |
| Config.FilledIdempotent | src/ConfigHelper.php:65-67 | running a section helper on its own result changes nothing |
| Config.AddSectionDefaults | src/ConfigHelper.php:25-27 | `$config[$root] = $this->add...($config[$root])` replaces that one section by the helper's result |
| Config.AddDefaults | src/ConfigHelper.php:22-29 | root keys first, then queues, exchanges and consumers, each through its helper, give `Defaulted(config)` |
| Config.DefaultedSetsRoots | src/ConfigHelper.php:37-55 | after `addDefaults` all five root sections are set |
| Config.DefaultedKeepsPlainRoot | src/ConfigHelper.php:22-29 | connections and publishers keep their content when set, and are `[]` otherwise |
| Config.DefaultedFillsEntity | src/ConfigHelper.php:22-29 | each entity section is its old section (or `[]`) with every entry extended by its helper |
| Config.DefaultedKeepsOtherKey | src/ConfigHelper.php:22-29 | a key outside the five root sections is neither added, removed nor changed |
| Config.DefaultedShaped | src/ConfigHelper.php:22-29 | the result is again a configuration `addDefaults` accepts |
| Config.DefaultedIdempotent | src/ConfigHelper.php:22-29 | `addDefaults` is idempotent |
| Connection.UnknownKeysMembers | src/AMQPConnection.php:60-63 | `array_diff` keeps exactly the detail keys outside DEFAULTS |
| Connection.UnknownKeysInInputOrder | src/AMQPConnection.php:60-67 | the unknown keys listed in the message keep the input order |
| Connection.EffectiveDetails | src/AMQPConnection.php:58-74 | succeeds iff there is no unknown key; on success the key set is exactly DEFAULTS' and every supplied value overrides its default; otherwise an InvalidArgumentException naming the unknown keys |
| Connection.DetailsValidated | src/AMQPConnection.php:58-68 | details are accepted iff every key is one of DEFAULTS' nine keys |
| Connection.NoDetailsMeansDefaults | src/AMQPConnection.php:17-31 | empty details give exactly DEFAULTS (127.0.0.1, 5672, lazy true, heartbeat 4, ...) |
| Connection.DefaultsWellFormed | src/AMQPConnection.php:17-31 | DEFAULTS has no repeated key and holds every key opening a connection reads |
| Connection.MergedDetails | src/AMQPConnection.php:70-73 | merged details can always open a connection and keep the caller's `lazy` |
| Connection.CreateConnection | src/AMQPConnection.php:58-74 | builds a connection iff the details validate, otherwise returns that InvalidArgumentException; a built one holds the merged details and has no channel |
| Connection.AmqpConnection.constructor | src/AMQPConnection.php:82-90 | stores alias and details; opens the transport connection at once iff `lazy` is exactly false, and otherwise issues nothing |
| Connection.AmqpConnection.GetConnection | src/AMQPConnection.php:95-120 | opens the transport connection only when none is cached, and afterwards returns the same one |
| Connection.AmqpConnection.GetChannel | src/AMQPConnection.php:135-141 | opens a channel (and a connection if needed) only when none is cached; later calls return the same channel and log nothing |
| Connection.AmqpConnection.Reconnect | src/AMQPConnection.php:125-130 | closes a channel that the transport connection hands out, clears the cached channel and calls `reconnect` on the connection once; the connection is kept (or opened first), so the next `getChannel` opens a fresh channel |
| Connection.AmqpConnection.GetAliasName | src/AMQPConnection.php:148-151 | returns the alias given at construction |
| LegacyConnection.DefaultsTransportKeys | src/Connection/AMQPConnection.php:17-31 | these DEFAULTS hold every transport key except `connect_timeout` |
| LegacyConnection.ConnectTimeoutFromCaller | src/Connection/AMQPConnection.php:71-96 | the merged details can open a connection iff the caller supplied `connect_timeout` |
| LegacyConnection.AmqpConnection.constructor | src/Connection/AMQPConnection.php:59-66 | stores DEFAULTS overridden by the caller's details, with no key check, and opens nothing whatever `lazy` says |
| LegacyConnection.AmqpConnection.GetConnection | src/Connection/AMQPConnection.php:71-96 | opens the transport connection at most once |
| LegacyConnection.AmqpConnection.GetChannel | src/Connection/AMQPConnection.php:101-107 | opens the channel once; later calls return the same one |
| LegacyConnection.AmqpConnection.GetName | src/Connection/AMQPConnection.php:114-117 | returns the alias given at construction |
| Registry.Container.constructor | src/Container.php:15-23 | both maps start empty, so no alias is registered |
| Registry.Container.AddPublisher | src/Container.php:30-34 | afterwards `hasPublisher(a)` and `getPublisher(a) == e`; every other alias and the consumer map are unchanged; an existing alias is overwritten in place, so the size is unchanged |
| Registry.Container.GetPublisher | src/Container.php:40-43 | yields the registered entity exactly when the alias is registered |
| Registry.Container.AddConsumer | src/Container.php:67-71 | the same for consumers; the publisher map is unchanged |
| Registry.Container.GetConsumer | src/Container.php:77-80 | yields the registered entity exactly when the alias is registered |
| Registry.LastRegistrationWins | src/Container.php:32 | registering one alias twice is registering the second entity once |
| Builder.CreateConnections | src/Builder/ContainerBuilder.php:85-95 | the loop computes `Connections`: `createConnection` per alias, in order, stopping at the first exception |
| Builder.ConnectionsOkIff | src/Builder/ContainerBuilder.php:85-95 | the connections are built iff no entry has an unknown detail key |
| Builder.ConnectionsInOrder | src/Builder/ContainerBuilder.php:88-93 | one connection per alias, in the section's order |
| Builder.ConnectionDetails | src/Builder/ContainerBuilder.php:88-93 | each built connection holds DEFAULTS overridden by its entry's details |
| Builder.CreateExchanges | src/Builder/ContainerBuilder.php:102-128 | the loop computes `BuiltEntities` for exchanges |
| Builder.CreateQueues | src/Builder/ContainerBuilder.php:135-161 | the loop computes `BuiltEntities` for queues |
| Builder.EntitiesOkIff | src/Builder/ContainerBuilder.php:107-116 | exchanges (or queues) are built iff every entry that has a `connection` key names a built connection; an entry without one is never checked |
| Builder.EntitiesInOrder | src/Builder/ContainerBuilder.php:105-126 | one entity per alias, in the section's order |
| Builder.EntityBuilt | src/Builder/ContainerBuilder.php:117-125 | each entity has its kind, the entry's connection, and the entry's attributes with the top-level `name` overriding `attributes['name']` |
| Builder.EntityAttributesName | src/Builder/ContainerBuilder.php:123 | the entity's name is the entry's top-level `name`, whatever `attributes['name']` held |
| Builder.RegisterPublishers | src/Builder/ContainerBuilder.php:33-52 | the publishers loop registers exactly `Publishers(...)`, or ends with its first RuntimeException; consumers untouched |
| Builder.PublishersOkIff | src/Builder/ContainerBuilder.php:33-47 | publishers resolve iff each names an exchange alias or a queue alias |
| Builder.PublisherBound | src/Builder/ContainerBuilder.php:35-48 | a publisher gets the exchange when an exchange alias matches, otherwise the queue |
| Builder.RegisterConsumers | src/Builder/ContainerBuilder.php:54-74 | the consumers loop registers exactly `Consumers(...)` and sets prefetch count and processor on each named queue, or ends with its first RuntimeException; publishers untouched |
| Builder.ConsumersOkIff | src/Builder/ContainerBuilder.php:58-69 | consumers resolve iff each names a queue alias; exchanges are never considered |
| Builder.ConsumerBound | src/Builder/ContainerBuilder.php:58-73 | one consumer per alias, in order, bound to the queue its entry names |
| Builder.SettingsLastWins | src/Builder/ContainerBuilder.php:71-72 | a queue shared by several consumers keeps the prefetch count and processor of the last one |
| Builder.SettingsOnlyNamed | src/Builder/ContainerBuilder.php:71-72 | only queues some consumer names get settings |
| Builder.CreateContainer | src/Builder/ContainerBuilder.php:25-77 | returns a container iff `PlanFor(config)` succeeds, otherwise that plan's first exception; a returned container holds the plan's publishers and consumers |
| Builder.PlanOkIff | src/Builder/ContainerBuilder.php:25-77 | a container is returned iff every reference in the configuration resolves |
| Builder.BuildBeforeResolve | src/Builder/ContainerBuilder.php:27-31 | connections, exchanges and queues are built before any alias is resolved: two configurations that agree on those three sections build the same objects, a build failure is the exception of both whatever their publishers and consumers say, and a returned container was built from exactly those objects |
| Builder.PlanPublisher | src/Builder/ContainerBuilder.php:33-52 | every publisher alias is registered, exchange before queue |
| Builder.PlanConsumer | src/Builder/ContainerBuilder.php:54-74 | every consumer alias is registered with the queue its entry names |
| Entities.NewEntity | src/Entity/AbstractAMQPEntity.php:30-38 | connection and name are stored unchanged, and the attributes are exactly the caller's |
| QueueEntity.DefaultAttributes | src/Entity/QueueEntity.php:15-25 | six flags, in order, all false |
| QueueEntity.Create | src/Entity/QueueEntity.php:30-51 | one `queue_declare` with the attributes in declared order, then, iff `bind` is set and the declare returned, one `queue_bind(name, bind.exchange, bind.routing_key)`; failures pass on |
| QueueEntity.Delete | src/Entity/QueueEntity.php:56-60 | exactly one `queue_delete(name)` |
| ExchangeEntity.DefaultAttributes | src/Entity/ExchangeEntity.php:16-26 | `exchange_type` "topic" then five flags, all false |
| ExchangeEntity.Create | src/Entity/ExchangeEntity.php:31-53 | one `exchange_declare`, then, iff `bind` is set and the declare returned, one `queue_bind(bind.queue, name, bind.routing_key)`; failures pass on |
| ExchangeEntity.Delete | src/Entity/ExchangeEntity.php:58-62 | exactly one `exchange_delete(name)` |
| EntityFactory.CreateEntity | src/Entity/EntityFactory.php:22-39 | "exchange" and "queue" give that kind with connection, name and attributes passed through; any other type is "Unknown entity type <type>" |
| Publishing.QueueIgnoresRoutingKey | src/Publisher/Publisher.php:78-82 | a queue is published through exchange `''` with its own name as routing key, whatever key the caller gave |
| Publishing.ExchangeKeepsRoutingKey | src/Publisher/Publisher.php:76-78 | an exchange is published to by name with the caller's key, so different keys give different destinations |
| Publishing.Publisher.Publish | src/Publisher/Publisher.php:76-93 | exactly one `basic_publish` of the unchanged body, mandatory true, to that destination; the broker's answer passes on |
| Publishing.Publisher.StartTransaction | src/Publisher/Publisher.php:39-45 | exactly one `tx_select` on the entity's channel |
| Publishing.Publisher.Commit | src/Publisher/Publisher.php:50-56 | exactly one `tx_commit` |
| Publishing.Publisher.RollBack | src/Publisher/Publisher.php:61-67 | exactly one `tx_rollback` |
| Processor.Reaction | src/Processor/AbstractMessageProcessor.php:26-35 | one ack iff accepted, otherwise none; one nack iff an \Exception reached the catch block (rejected, thrown by `processMessage`, or thrown by the ack), otherwise none; nothing else is sent, and the ack comes first when both are; `consume` ends as the last verb it sent ended, so only the nack's own exception escapes; a \Error from `processMessage` escapes with nothing sent |
| Processor.MessageProcessor.Consume | src/Processor/AbstractMessageProcessor.php:23-36 | the count rises by one whatever happens, then exactly the verbs of `Reaction` are sent |
| Processor.MessageProcessor.GetProcessedMessages | src/Processor/AbstractMessageProcessor.php:41-44 | returns the count, 0 after construction |
| Interpreter.InterpretArguments | src/Interpreter/EntityArgumentsInterpreter.php:15-21 | a table comes back unchanged, and an array becomes a table of the same entries |
| Interpreter.InterpretProperties | src/Interpreter/EntityArgumentsInterpreter.php:23-29 | `delivery_mode` is 2 when `durable` is exactly true; otherwise the properties come back unchanged; no other key changes |
| Interpreter.InterpretPropertiesIdempotent | src/Interpreter/EntityArgumentsInterpreter.php:25-28 | interpreting twice gives what interpreting once gives |
| Interpreter.InterpretPropertiesKeyOrder | src/Interpreter/EntityArgumentsInterpreter.php:26 | key order is kept, with `delivery_mode` appended when new |
| Consuming.ConsumerTagsDistinguishProcesses | src/Consumer/Consumer.php:94 | the tag `alias_host_pid` differs for different processes on one host |
| Consuming.Consumer.constructor | src/Consumer/Consumer.php:34-42 | alias, entity and processor are stored as given |
| Consuming.Consumer.ShouldStopConsuming | src/Consumer/Consumer.php:74-77 | always false |
| Consuming.Consumer.SetupConsumer | src/Consumer/Consumer.php:82-104 | `basic_qos(null, 1, true)` and then, if it returned, `basic_consume` of the entity's queue with tag `alias_host_pid`, every flag false and the processor as the callback object |
| Consuming.Consumer.StartConsuming | src/Consumer/Consumer.php:55-69 | setup once, then one `wait` per turn on the same channel, whatever each wait throws; only a failing setup ends the call |
| Commands.CreateEntity | src/Command/SetupCommand.php:57-84 | with `--force`, one delete immediately before the create, and a failing delete ends the call; without it, create only |
| Commands.CreateEach | src/Command/SetupCommand.php:95-128 | the create loops compute `Phase` with `Creating` |
| Commands.TryEach | src/Command/DeleteAllCommand.php:55-100 | a loop of single calls whose \Exception is caught computes `Phase` |
| Commands.PhaseConcat | src/Command/SetupCommand.php:95-128 | two loops with the same body over `a` then `b` are one loop over `a + b` |
| Commands.SetupCommand.Handle | src/Command/SetupCommand.php:89-179 | the four loops give the trace and exit of `SetupRun` |
| Commands.SetupExitCode | src/Command/SetupCommand.php:93-178 | returns 1 iff some failure was caught and none escaped, 0 iff none was caught; otherwise what escaped is the last call's failure |
| Commands.SetupReconnects | src/Command/SetupCommand.php:98-127 | every create (or forced delete) that failed with a channel exception is immediately followed by a reconnect of that entity, every reconnect follows such a failure, and every other call carries the broker's answer |
| Commands.SetupPhaseOrder | src/Command/SetupCommand.php:95-177 | publisher creates, then consumer creates, then publisher binds, then consumer binds |
| Commands.SetupForceRecreates | src/Command/SetupCommand.php:63-74 | with `--force` every create is immediately preceded by a delete of the same entity; without it no delete is made |
| Commands.SetupEveryRegistration | src/Command/SetupCommand.php:95-177 | when nothing escapes, every registration is created once and bound once, so an entity registered in both roles is handled twice |
| Commands.DeleteAllCommand.Handle | src/Command/DeleteAllCommand.php:51-102 | the two loops give the trace and exit of `DeleteAllRun` |
| Commands.DeleteAllCalls | src/Command/DeleteAllCommand.php:55-100 | one delete per publisher, then one per consumer, in order, and no other call, until a \Error escapes |
| Commands.DeleteAllExitCode | src/Command/DeleteAllCommand.php:53-101 | returns 1 iff some delete threw an \Exception and none a \Error, 0 iff every delete returned; a \Error escapes |
| Commands.DeleteAllTwice | src/Command/DeleteAllCommand.php:55-81 | an entity registered under both roles is deleted once for each registration |

## Left out

- Transport and wire work is not modelled. This covers `AMQPStreamConnection`, channel objects, `wait()` and `AMQPMessage`. Each is a logged event or an opaque handle; transport events always succeed, and verbs are answered by the oracle.
- Console output (`$this->output->writeln`, `dump()`) is I/O and is left out.
- `gethostname()` and `getmypid()` are parameters of `SetupConsumer` and `StartConsuming`.
- PHP array keys are strings only. Integer keys, and the renumbering `array_merge` does on them, are not modelled.
- Interpreter.InterpretArguments: the AMQPTable encoding of an array is foreign code. The model keeps the entries and marks them as a table.
- Consuming.Consumer.StartConsuming: the loop never ends in the source, because `shouldStopConsuming` is always false. The model observes it for `cycles` turns.
- Consuming.Consumer.StartConsuming: which callback `wait` dispatches to is not modelled. Neither is whether a wait throws, which the loop ignores anyway.
- Processor.MessageProcessor.Consume: `processMessage` is abstract. Its outcome is a parameter (accepted, rejected, threw an \Exception, or threw a \Error).
- Commands.SetupCommand.Handle: create, delete, bind and reconnect are opaque entity calls answered by the oracle, with reconnect assumed to return.
- Commands.SetupCommand.Handle: the model assumes each registered entity is a full `AMQPEntityInterface` implementation, with `getAliasName`, `reconnect` and `bind` (src/Entity/AMQPEntityInterface.php:16-37) that return. No entity class of this source defines them: AbstractAMQPEntity, QueueEntity and ExchangeEntity have none of the three and do not implement the interface. With those entities, the `getAliasName()` call in every message (src/Command/SetupCommand.php:68, 79, 103, 121, 138, 147) would throw a \Error that no `catch (\Exception)` handles, and so would `reconnect()` and `bind()`.
- Commands.DeleteAllCommand.Handle: the same assumption covers the `getAliasName()` calls at src/Command/DeleteAllCommand.php:61, 70, 85, 94.
- Commands.SetupRun: each pair of loops with the same body is one loop over the publishers followed by the consumers. `PhaseConcat` proves this equal to the two loops, and the methods keep both loops.
- Builder.CreateContainer: connections are kept as their effective details, not as objects. The entity the builder puts is a `Blueprint` (kind, connection alias, name, attributes), because `ExchangeEntity::createExchange` and `QueueEntity::createQueue` are not part of this model.
- Builder.CreateContainer: `setPrefetchCount` and `setMessageProcessor` on a shared queue are modelled as a settings map keyed by queue alias.
- Builder.CreateQueues: the error message says "exchange" (src/Builder/ContainerBuilder.php:144), and the model keeps that wording.
- Builder.CreateContainer: the configuration must be `Buildable`. Connection entries are arrays, entity entries are arrays with an `attributes` array, and the sections it reads are set. The source reads these without checks; where they are missing it would raise a warning or a TypeError, and that path is not modelled.
- Connection.AmqpConnection.GetConnection: requires every transport key to be present (`Ready`/`CanConnect`), because the source reads them unchecked. Details built by `createConnection` always satisfy this (`MergedDetails`).
- LegacyConnection.AmqpConnection.GetConnection: requires `connect_timeout` from the caller, because these DEFAULTS lack it (`ConnectTimeoutFromCaller`).
- QueueEntity.Create: requires a set `bind` to be an array (`BindIsArray`), because the source indexes it without a check.
- ExchangeEntity.Create: requires a set `bind` to be an array (`BindIsArray`), for the same reason.
- Registry.Container.GetPublisher: an unknown alias yields none. The source returns null there, which its declared return type turns into a TypeError.
- Registry.Container.GetConsumer: an unknown alias yields none. `getConsumer` declares no return type, so the source returns null there, with an undefined-key warning.
- Config.AddDefaults: the model accepts only configurations whose queues, exchanges and consumers sections, when set, are arrays whose entries are arrays or null (`Shaped`). Config.AddKeyOnEntries, Config.AddAttributesOnEntities and Config.AddPrefetchOnConsumers require the same of their section. PHP handles the other inputs as follows, and none of these paths is modelled:
  - a section that is set but not an array raises a TypeError at the `array` parameter (src/ConfigHelper.php:62, 80);
  - a string, integer or `true` entry raises a \Error when `['attributes']` or `['prefetch_count']` is written into it;
  - a `false` entry becomes an array, with a deprecation notice.
- EntityFactory.CreateEntity: the default `$entityAttributes = []` (src/Entity/EntityFactory.php:26) is a caller passing `Empty()`.
- Concurrency and signals are not modelled. The publish retry, stop conditions and factory methods that appear only in tests are also left out, because the modelled source does not implement them.
