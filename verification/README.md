# Verification of chitchat

chitchat consumes from RabbitMQ queues, evaluates rules on every message and publishes mock responses,
while a spy API shows what passed through. This project models its core in Dafny and proves what its
comments and documentation promise: order without loss, a shutdown that is final, a loop guard that makes
feedback die out, exact accounting of matches, a long-poll protocol without lost wakeups, exactly-once
cursor reading, an exact static loop analysis, and a template rewriter that is idempotent and conservative.

`dafny verify dfyconfig.toml` checks the whole project.

## Structure

- `Basics`, `Config`: sequences and sums; the configuration entities and the message type.
- `Pipeline`: the running system as a transition system. A state holds the broker's backlog, one consumer
  goroutine per subscription with its delivery channel and the message it is sending, the bounded channel
  `msgChan`, the process loop with a program counter inside `handleMessage`, one record per match with the
  phase of its dispatch worker, every rule set ever loaded with its counters, both WaitGroups, the locks
  and flags, and any number of goroutines inside `Start`, `Reload`, `Stop` and the driver's `Close`. A step
  is one action of one goroutine. `ConsumerDo` follows `pkg/broker/rabbitmq.go:182-221`, `LoopDo`
  `pkg/engine/engine.go:213-279`, `WorkerDo` `pkg/engine/engine.go:269-313` with
  `pkg/broker/rabbitmq.go:227-272`, and `CallerPc`, `CallerFlags`, `CallerEffect` follow
  `pkg/engine/engine.go:117-187`, `pkg/engine/engine.go:319-346` and `pkg/broker/rabbitmq.go:152-181`,
  `pkg/broker/rabbitmq.go:277-307`. JSONPath evaluation and broker routing are parameters (`World`). Where
  a message came from (`Source`) is carried along for the proofs; no step looks at it.
- `Shutdown`, `Order`, `Conservation`, `Provenance`, `Completeness`, `Responses`, `LoopGuard`, `Quiescence`,
  `Reordering`, `Coverage`: inductive invariants of that system and what follows for all reachable states and all runs. `Witnesses`: runs on which
  a stronger claim fails, put together from the single steps of `Moves`.
- `Engines`: `desiredQueues`, `Start`, `Reload` and `handleMessage` as imperative code on a class, specified
  by the steps of the transition system.
- `Topic`, `Validation`, `Feedback`, `Composition`: topic matching, `Validate`, `Warnings` against a broker
  after AMQP 0-9-1, and the composition of the analysis with the running system.
- `Rewriting`, `Template`, `Payload`, `Rendering`: `rewriteCode`, `rewriteAction` and `preprocessTemplate`;
  `transformPayload` over mappings in any order; `RenderPayload` and `ValidateTemplates`.
- `Spy`, `RingBuffers`, `WaitProtocol`, `CursorReading`: the spy's window and filters, the ring buffer
  class with its change signals, `waitForMessages` as a transition system, and readers with a cursor.

## Results that differ from what one might expect

- `Stop` returning nil does not always mean that everything has come to rest: a second `Stop` returns nil
  at once while the first one still drains (`Witnesses.SecondStopReturnsBeforeDrain`). After a stop request
  the engine's state is final exactly when the WaitGroup is at zero (`Quiescence.FinalExactlyWhenDrained`).
- The messages of a queue are recorded in the broker's order while it has at most one consumer, whatever
  other queues have (`Order.EndToEndOrder`). `Reload` never adds a second one; `Start` does exactly when it is
  called again after a partial failure (`Order.SecondConsumerExactlyOnResubscription`). In a running engine on a
  working driver the order of a queue is right in every later state exactly if the queue has at most one
  consumer (`Reordering.OrderedExactlyIfSingle`); `Witnesses.RetriedStartReorders` is a run that gets there. The
  command line stops the engine instead of starting it again (`cmd/chitchat/main.go:260-264`).
- After `Close` nothing more is published, but a spy entry can still be written
  (`Witnesses.RecordedAfterClose`), exactly for a publication that succeeded before and is not recorded yet
  (`Provenance.RecordedAfterCloseExactlyIfSent`).
- A 408 response can carry as many messages as were waited for (`WaitProtocol.TimeoutMayCarryEnough`), exactly
  if the buffer changed after the request was parked and holds enough when the request looks again
  (`WaitProtocol.TimeoutCarriesEnoughExactlyIfOvertaken`).
- Reading with a cursor is complete exactly if every selected message was in the window at some poll
  (`CursorReading.ReadingIsCompleteExactlyIfSeen`). That is so for all messages exactly if the polls keep pace
  (`CursorReading.PacedExactlyIfAllSeen`); two messages between two polls of a window for one lose the first
  (`CursorReading.OverrunLosesMessage`).
- A payload has a single rendering exactly when mapping entries whose keys become equal have equal values
  (`Payload.OneOutcomeExactlyWhenConsistent`); `{1: 10, "1": 20}` has two
  (`Rendering.CollidingKeysRenderTwice`).
- For an exchange that is not in the configuration the loop analysis assumes a topic exchange. It is exact
  if the exchange is one. For a direct one it misses nothing and warns in vain exactly if a binding key
  matches as a topic and none is equal (`Feedback.UndeclaredExchange`); for a fanout exchange it misses a
  loop exactly when no binding key matches as a topic (`Feedback.UndeclaredFanoutMissed`).
- The loop analysis looks at one configuration, but `Reload` leaves the bindings of the earlier ones at the
  broker: two configurations without a loop warning can loop one after the other
  (`Composition.EarlierBindingsLoop`). The analysis of all of them taken together is exact
  (`Feedback.AnalysisIsExact`), and without a warning of it there is no feedback over any reloads
  (`Composition.NoWarningMeansNoFeedback`).

## Model

| member | source | states |
|---|---|---|
| Shutdown.NoAddAfterZero | pkg/engine/engine.go:269-273 | Once the engine is stopped and the WaitGroup is at zero, no step of any goroutine raises it, handles a message, publishes or records. |
| Shutdown.StopIsFinal | pkg/engine/engine.go:315-346 | When a Stop has returned after draining, no later run changes the engine (loop, workers, counters, spy history), the consumers or the message channel. |
| Shutdown.EngineClosesOnce | pkg/engine/engine.go:316-344 | At most one goroutine ever gets past the stopped flag; if it reaches the driver's Close after a drain, no worker is alive. |
| Shutdown.EngineEntersCloseOnce | pkg/engine/engine.go:316-344 | Over every run the engine enters the driver's Close at most once, and not again once it has been there. |
| Shutdown.NoConsumerAddedAfterClose | pkg/broker/rabbitmq.go:179-183 | Once the driver is closed the consumer WaitGroup is never added to, so Add does not race Wait. |
| Shutdown.CloseIsFinal | pkg/broker/rabbitmq.go:274-307 | When Close has returned, in every later run no consumer does anything and nothing is sent to the message channel; it can only be drained. |
| Shutdown.CloseCutsTheLink | pkg/broker/rabbitmq.go:286-306 | Close returns, to whichever caller, only after the connection has been cut, so nothing is delivered any more. |
| Shutdown.CloseCannotBlock | pkg/broker/rabbitmq.go:277-307 | While Close holds the write lock, it can go on to cut the connection, every live consumer can exit without a lock, and when none is left Close can return. |
| Shutdown.WriterExcludes | pkg/broker/rabbitmq.go:227-233 | While Close holds the driver's write lock nobody else publishes, declares a topology or adds a consumer, and only its holder releases it. |
| Shutdown.ClosingDecreases | pkg/broker/rabbitmq.go:184-220 | Once the driver is closed, every step of a consumer, deliveries before the connection is cut included, uses up part of a finite measure; no other goroutine raises it, only a message that arrives at the broker while the connection is still up. So consumers do exit. |
| Shutdown.OutcomesAreRight | pkg/engine/engine.go:121-126 | A call returns "stopped", "already running", "not running", a failure or success exactly in the cases of the flags it sees, or of the broker's refusal, that call for it. |
| Shutdown.ReasonsAreKept | pkg/engine/engine.go:329-345 | A Stop that sees the WaitGroup at zero goes on to close and returns as drained, one whose context expires first as timed out. |
| Shutdown.AnyoneMayCall | pkg/engine/engine.go:121-127 | From every reachable state one with a further call of Start, Reload, Stop or Close is reachable: the theorems are about any number of them, at any time. |
| Order.EndToEndOrder | pkg/engine/engine.go:213-234 | In every reachable state, for a queue with at most one consumer, the messages the broker enqueued on it are, in order: those the spy recorded, those in the loop, in the channel, held or buffered by the consumer, and undelivered; so the recorded ones are always a prefix, without loss, duplication or reordering. |
| Conservation.NothingLostOrDuplicated | pkg/broker/rabbitmq.go:182-221 | In every reachable state, also with several consumers on a queue, every message arrived at the broker as often as it was recorded, is held by the loop, in the channel, held by consumers and undelivered, together. |
| Conservation.RecordedHadArrived | pkg/broker/rabbitmq.go:195-202 | Every received entry of the spy is a message that arrived at the broker, with direction received. |
| Conservation.ChannelIsBounded | pkg/engine/engine.go:87 | The channel never holds more than 100 messages. |
| Conservation.OnlyCloseDropsMessages | pkg/broker/rabbitmq.go:182-221 | A consumer gives up a message it has taken only when the driver is closed, and one only delivered to it only then or when the connection is lost. |
| Order.OneConsumerWithoutRetry | pkg/engine/engine.go:133-140 | No queue has two consumers unless some Start began with queues already subscribed. |
| Order.SecondConsumerExactlyOnResubscription | pkg/engine/engine.go:170-178 | A step of any goroutine gives a queue a second consumer exactly when it is Start's successful subscription of that queue, which is subscribed already; Reload never does. |
| Reordering.OrderedExactlyIfSingle | pkg/engine/engine.go:133-140 | In a running engine on a connected, open driver: the recorded messages of a queue are a prefix of its arrivals in every later state exactly if the queue has at most one consumer. |
| Reordering.SharedQueueReorders | pkg/broker/rabbitmq.go:182-221 | From every such state with two consumers on a queue, some run records its messages in another order than they arrived. |
| Reordering.SingleStays | pkg/engine/engine.go:121-126 | Once the engine runs, no queue with at most one consumer ever gets another one. |
| Provenance.NeverOutOfRange | pkg/engine/engine.go:247-253 | The process loop is never stuck in the middle of a message: its rule set and index stay valid across reloads. |
| Provenance.AttemptPerEntryAndRule | pkg/engine/engine.go:247-274 | A received message and a rule index lead to at most one match, hence to at most one publication. |
| Provenance.AttemptsMeetConditions | pkg/engine/matcher.go:13-27 | In every reachable state each attempt answers a received entry whose origin header is absent or nil, with the queue and the routing key its rule asks for, if it asks for one, and a body on which all its JSONPath rules are true. |
| Completeness.EveryMatchIsAttempted | pkg/engine/engine.go:236-253 | Conversely, once the loop is through with a received message without an origin header, over any interleaving and reloads, there is a rule set of which exactly those rules have an attempt for it whose queue, routing key and JSONPath conditions it meets. |
| Provenance.PublishedEntriesAreTraceable | pkg/engine/engine.go:289-312 | Every published entry of the spy belongs to an attempt for an earlier received entry and is the only one of that attempt. It has the rule's name, exchange and routing key, the attempt's body, direction published, and as headers exactly the configured ones plus the origin header with the rule's name. |
| Provenance.MatchesAreConserved | pkg/engine/engine.go:251-312 | For every rule of every rule set, replaced ones included, in every reachable state: matches = render failures + cancellations + publish failures + publications + work in flight. |
| Provenance.ClosedPublishesNothing | pkg/broker/rabbitmq.go:227-233 | With the driver closed no step publishes anything. |
| Provenance.NothingPublishedAfterClose | pkg/broker/rabbitmq.go:227-233 | Over every run after the driver closed, also after a timed out Stop, whatever is published or recorded as published had been published before. |
| Provenance.RecordedAfterCloseExactlyIfSent | pkg/engine/engine.go:298-312 | With the driver closed, a published entry of an attempt can still be written in some later state exactly if its publication succeeded before and is not recorded; and it has an entry now or later exactly if its publication succeeded before. |
| LoopGuard.CopiesAreStamped | pkg/engine/engine.go:291-296 | Every copy of a response has exactly the configured headers plus the origin header; the origin is the rule's name whatever is configured for it, and every other value is the configured one. |
| Responses.CopiesCarryTheResponse | pkg/engine/engine.go:289-301 | In every reachable state each message of the engine's own at the broker is on a queue that its rule's exchange and routing key route to, with the rule's routing key and headers, the origin header, and the rendered body. |
| Responses.EveryPublicationIsRoutedOnce | pkg/engine/engine.go:298-302 | In every reachable state the broker has got one copy for each queue of the route of an attempt whose publication was accepted, and none of any other attempt. |
| Responses.OnlyDelayedAreCancelled | pkg/engine/engine.go:281-287 | Only a response with a positive delay ever waits or is given up, and it is given up only after the engine was cancelled. |
| LoopGuard.NeverReactsToOwnOutput | pkg/engine/engine.go:236-244 | In every reachable state every match stems from a message published by somebody else, over any routing of responses back to queues. |
| LoopGuard.PublicationsAreBounded | pkg/engine/engine.go:236-274 | Publications never exceed the messages from outside that were handled times the rules per rule set. |
| Quiescence.StepDecreases | pkg/engine/engine.go:236-274 | Every step that is not an input from outside decreases a ranking measure, given bounds on the rule sets, their queues and the copies of their responses; every state has such bounds. |
| Quiescence.ActivityIsBounded | pkg/engine/engine.go:236-274 | So a run without input is no longer than the rank of its first state. |
| Quiescence.ActivityDiesOut | pkg/engine/engine.go:236-274 | From every reachable state, over any routing, the length of all runs without input is bounded: feedback dies out. |
| Quiescence.Settles | pkg/engine/engine.go:213-224 | From every reachable state a quiescent one can be reached without input and without any Stop timing out. |
| Quiescence.NobodyIsBlocked | pkg/engine/engine.go:329-345 | No deadlock, even for a Stop whose context never expires: when nothing but inputs and timeouts can happen, every call of Start, Reload, Stop and Close has returned and every lock is free. |
| Quiescence.NothingIsRunning | pkg/engine/engine.go:329-342 | In a quiescent state no worker is alive, every match has a final outcome, and a stopped engine has drained. |
| Quiescence.EverythingIsRecorded | pkg/broker/rabbitmq.go:182-221 | In a quiescent state of a running, connected engine everything that arrived on a subscribed queue with one consumer is in the spy's history, in order. |
| Quiescence.FinalExactlyWhenDrained | pkg/engine/engine.go:319-327 | After a stop request the engine's state is final exactly when the WaitGroup is at zero, whatever Stop returned. |
| Coverage.ActiveRulesAreCovered | pkg/engine/engine.go:155-183 | In every reachable state the active rules are those of the current configuration, and while the engine runs every queue they need has a consumer. |
| Coverage.ReloadIsAtomic | pkg/engine/engine.go:159-187 | Subscriptions only grow; rules, counters and configuration change only together, in the last step of a successful Reload that holds the mutex, so a failed Reload leaves them alone. |
| Witnesses.SecondStopReturnsBeforeDrain | pkg/engine/engine.go:321-324 | A run in which a second Stop has returned nil and the engine then still records a message. |
| Witnesses.RetriedStartReorders | pkg/engine/engine.go:135-140 | A run in which a Start called again leads to two consumers on a queue and the spy records its messages in another order than they arrived. |
| Witnesses.RecordedAfterClose | pkg/engine/engine.go:298-312 | A run in which Stop times out and returns, the driver is closed with no consumer left, and the spy then records a response as published. |
| Engines.DesiredQueues | pkg/engine/engine.go:96-114 | The queues to consume from are sorted, without duplicates, and exactly the nonempty trigger queues of the rules and spy queues. |
| Engines.LessEqMeaning | pkg/engine/engine.go:112-114 | The sorting order: a string comes before those it begins and before those with a larger character where they first differ. |
| Engines.Engine.Start | pkg/engine/engine.go:117-153 | Run by itself, Start refuses a stopped and then a running engine, fails when the topology or a queue is refused, and otherwise consumes from each desired queue in sorted order, starts the loop and sets running. The flags change by the caller steps of the transition system. |
| Engines.Engine.Reload | pkg/engine/engine.go:159-187 | The same for Reload, which refuses an engine that is stopped or not running and skips queues already consumed; on success the new rules are loaded with zero counters, otherwise the rule set is untouched. |
| Engines.ExecutionIsARun | pkg/engine/engine.go:117-187 | Such an execution is a run of the whole system in any state with these flags, so the theorems about runs apply to the code of Start and Reload. |
| Engines.Engine.HandleMessage | pkg/engine/engine.go:226-279 | Records the message with its direction filled in, does nothing more if the origin header is there and not nil, and otherwise appends what DispatchesExactly, DispatchesAscend and DispatchesMeaning describe, counts as BumpedMeaning does and raises the WaitGroup by the workers started. |
| Engines.RuleMatches | pkg/engine/matcher.go:13-27 | The loop answers true exactly if the rule's queue is empty or the message's, its routing key is empty or the message's, and every JSONPath rule is true on the body. |
| Engines.DispatchesExactly | pkg/engine/engine.go:247-274 | A rule has an attempt for the message exactly if the message meets its queue, routing key and JSONPath conditions. |
| Engines.DispatchesAscend | pkg/engine/engine.go:247-274 | The attempts come in the order of the rules, at most one for each. |
| Engines.DispatchesMeaning | pkg/engine/engine.go:255-290 | Each attempt carries what its rule renders; without a body it has failed and has no worker, and with one it waits if the rule has a delay and is ready otherwise. |
| Engines.BumpedMeaning | pkg/engine/engine.go:247-252 | Trying the rules raises the counter of each rule whose queue, routing key and JSONPath conditions the message meets by one, and no other. |
| Engines.HandlingIsARun | pkg/engine/engine.go:226-279 | Without interference the process loop's steps take a received message to exactly what HandleMessage specifies. |
| Engines.TriedAttempts | pkg/engine/engine.go:247-274 | That run appends exactly the attempts that HandleMessage specifies and nothing to the spy. |
| Engines.TriedWorkers | pkg/engine/engine.go:269-273 | It raises the WaitGroup by exactly the number of workers started. |
| Engines.TriedCounters | pkg/engine/engine.go:247-252 | It changes the counters of the active rules as HandleMessage specifies and no others. |
| Topic.MatchWords | pkg/config/validate.go:250-267 | The recursive matcher accepts exactly the keys that can be cut into consecutive segments, one per pattern word: any number of words for #, one for *, the same word for a literal (section 3.1.3.3 of AMQP 0-9-1); it terminates. |
| Topic.TopicMatches | pkg/config/validate.go:244-248 | The same for dotted strings. |
| Topic.WordsRoundTrip | pkg/config/validate.go:246-248 | Splitting at dots loses nothing: joining the words gives the string back, and no word has a dot. |
| Topic.AcceptsConcat | pkg/config/validate.go:250-267 | A concatenation of patterns accepts exactly the concatenations of keys accepted by its parts. |
| Topic.AdjacentHashesCollapse | pkg/config/validate.go:255-261 | Anywhere in a pattern, # followed by # accepts the same keys as one #. |
| Topic.HashAndStarCommute | pkg/config/validate.go:254-266 | Anywhere in a pattern, # followed by * accepts the same keys as * followed by #. |
| Topic.LiteralPatternIsExact | pkg/config/validate.go:264-266 | Without wildcards a pattern accepts exactly itself. |
| Topic.TopicCoversDirect | pkg/config/validate.go:215-240 | Topic matching covers direct matching for every routing key, also for keys with the words * and #. |
| Validation.CheckExchanges | pkg/config/validate.go:61-75 | Reports exactly the exchanges without a name, with the name of an earlier one, or of an unknown type. |
| Validation.CheckQueues | pkg/config/validate.go:76-91 | Reports exactly the queues without a name or with the name of an earlier one, and the bindings without exchange. |
| Validation.CheckSpyQueues | pkg/config/validate.go:107-112 | Reports exactly the blank spy queues. |
| Validation.CheckRules | pkg/config/validate.go:114-139 | Reports exactly the unnamed rules, the rules named like an earlier one, with the first of that name, and the rules with a fault in trigger or response. |
| Validation.Validate | pkg/config/validate.go:61-145 | Reports exactly these problems, and none exactly when the configuration is valid. |
| Validation.ValidExactly | pkg/config/validate.go:61-145 | What valid means over the fields: names present and different, known exchange types, bindings with an exchange, no blank spy queue, and rules with a trigger queue, a target, filters that are not blank and no negative delay. |
| Feedback.DeclareExchanges | pkg/broker/rabbitmq.go:82-106 | Succeeds exactly if no name gets two types, and then exactly the existing and the configured exchanges exist, the latter with their types; one without a type is a direct exchange. |
| Feedback.DeclareBindings | pkg/broker/rabbitmq.go:128-146 | Succeeds exactly if every binding's exchange exists, and then makes exactly the queue's bindings. |
| Feedback.DeclareTopology | pkg/broker/rabbitmq.go:82-149 | Succeeds on a broker exactly when no exchange type conflicts and every binding's exchange exists, and then the broker has exactly the configured queues and bindings. |
| Feedback.DeliveryByType | pkg/broker/rabbitmq.go:85-88 | On the declared broker an exchange of type direct, or without a type, delivers to a queue exactly if the queue is bound with the very key, a topic exchange if some binding key accepts it, a fanout exchange if there is any binding, and the default exchange by the queue's name. |
| Feedback.ResponseReachesQueue | pkg/config/validate.go:211-242 | True exactly when some binding of the queue to the response's exchange routes the response's key, under the type of the exchange's last declaration or topic. |
| Feedback.Warnings | pkg/config/validate.go:149-200 | The list holds exactly the warranted warnings, each once. |
| Feedback.SilentExactly | pkg/config/validate.go:149-181 | Nothing but loops is warned of exactly if something is consumed, every rule has a routing key or JSONPath condition, and its queue and exchange are declared where queues or exchanges are declared at all, amq. exchanges and the default one apart. |
| Feedback.Dedupe | pkg/config/validate.go:269-280 | Keeps the first occurrence of each element, in order. |
| Feedback.FirstOccurrencesMeaning | pkg/config/validate.go:269-280 | Keeping first occurrences loses no element and leaves no duplicates. |
| Feedback.FirstOccurrencesInOrder | pkg/config/validate.go:269-280 | What is kept stays in the order of the first occurrences. |
| Feedback.AnalysisIsExact | pkg/config/validate.go:182-197 | For a configuration declared on a broker, a trigger queue of it with a name and a response to the default exchange or to a declared direct, topic or fanout exchange: there is a loop warning exactly if the broker delivers the response to the queue. |
| Feedback.UndeclaredExchange | pkg/config/validate.go:215-224 | For an undeclared exchange the analysis is exact if it is a topic exchange; if it is a direct one, it misses nothing and warns without a delivery exactly if a binding key matches the routing key as a topic pattern and none equals it. |
| Feedback.UndeclaredFanoutMissed | pkg/config/validate.go:215-224 | For an undeclared fanout exchange a loop is missed exactly when none of the queue's binding keys matches the routing key as a topic pattern. |
| Feedback.UndeclaredFanoutWitness | pkg/config/validate.go:215-224 | A valid configuration and a broker for which it is missed. |
| Composition.NoWarningMeansNoFeedback | pkg/config/validate.go:182-199 | In every run of the whole system over one or several valid configurations, reloads included, whose analysis taken together gives no loop warning, no response of the engine ever enters a trigger queue of any of them. |
| Composition.EarlierBindingsLoop | pkg/engine/engine.go:166-169 | Two valid configurations without loop warnings: after a reload from one to the other a response reaches its own trigger queue through a binding of the earlier one. |
| Rewriting.PassIsDotted | pkg/engine/template.go:22-24 | A leftmost, non-overlapping regular-expression replacement inserts a dot at every reference after a boundary: no match hides another one. |
| Rewriting.PassesCompose | pkg/engine/template.go:108-112 | A second pass after a first one inserts both kinds of dots at once if the first leaves the references of the second alone. |
| Rewriting.RewriteIsDotted | pkg/engine/template.go:108-112 | The two sequential replacements equal one simultaneous insertion: neither creates, destroys or hides a match of the other. |
| Rewriting.RewriteInsertsExactly | pkg/engine/template.go:108-112 | Dots go exactly to the positions of the original text that begin it or follow a boundary character and begin a reference; deleting them gives the text back. |
| Rewriting.MarkedExactly | pkg/engine/template.go:19-28 | Position p of code is marked exactly if it is the first or follows a blank, tab, newline, carriage return, form feed, parenthesis, bar or comma, and the rest begins with trigger., system. or headers., or with queue or routing_key that no letter, digit or underscore follows. |
| Rewriting.RewriteIsIdempotent | pkg/engine/template.go:108-112 | Rewriting rewritten code changes nothing. |
| Template.RewriteAction | pkg/engine/template.go:75-106 | The index loop stays in bounds and terminates despite the escape skip, and yields the action's segments with exactly the code segments rewritten. |
| Template.SegmentsText | pkg/engine/template.go:79-104 | The segments of an action together are the action: nothing is dropped, unterminated literals included. |
| Template.SegmentsAreStable | pkg/engine/template.go:75-106 | Segmenting a rewritten action gives the same segmentation, every quoted literal unchanged. |
| Template.PreprocessTemplate | pkg/engine/template.go:68-73 | The replacement over non-greedy matches equals lexing into text and actions, rewriting the actions and rendering. |
| Template.LexIsStable | pkg/engine/template.go:68-73 | Lexing a preprocessed template gives the rewritten tokens: the rewriting moves no boundary of an action or a literal. |
| Template.PreprocessIsIdempotent | pkg/engine/template.go:65-73 | Preprocessing twice equals preprocessing once. |
| Template.PreprocessIsConservative | pkg/engine/template.go:65-73 | Preprocessing only inserts dots, before the references in the code of actions; deleting them gives the template back, so text outside actions and quoted literals is unchanged. |
| Template.FirstActionIsRewritten | pkg/engine/template.go:68-73 | In text with an action, what precedes the first action stays, the action is rewritten, and the rest is preprocessed. |
| Template.CodeIsRewritten | pkg/engine/template.go:75-112 | An action without quotes gets exactly the dots that MarkedExactly describes. |
| Template.LiteralIsKept | pkg/engine/template.go:79-104 | In an action, the code before a quoted literal gets these dots, the literal stays as it is, and what follows is treated as an action. |
| Template.UnterminatedIsKept | pkg/engine/template.go:79-104 | A literal that is never closed, also one that ends with a backslash, reaches to the end of the action and stays as it is. |
| Template.UnclosedIsKept | pkg/engine/template.go:68-73 | Text whose first "{{" has no "}}" behind it stays as it is; so does text without "{{" (NoActionIsKept). |
| Template.PipedReference | pkg/engine/template.go:19-21 | `{{ trigger.amount \| json }}` becomes `{{ .trigger.amount \| json }}`. |
| Payload.TransformPayload | pkg/engine/template.go:119-156 | Whatever order mappings are traversed in, success yields one of the possible outcomes and an error is the leaf function's error on a string that occurs; it terminates on every payload. |
| Payload.TransformEntry | pkg/engine/template.go:158-169 | Transforms key and value; a key stays a string. |
| Payload.FailureIgnoresOrder | pkg/engine/template.go:119-169 | It fails under one order exactly if under all: when the leaf function fails on some key or string that occurs. |
| Payload.OneOutcomeExactlyWhenConsistent | pkg/engine/template.go:123-142 | A payload that transforms has a single outcome exactly when entries of a mapping whose keys become equal have equal values. |
| Payload.DistinctKeysKeepTheShape | pkg/engine/template.go:118-156 | With distinct transformed keys the outcomes are exactly the trees of the same shape with every string replaced by its transform and everything else untouched. |
| Payload.DistinctKeysAreConsistent | pkg/engine/template.go:123-142 | With distinct transformed keys there is a single outcome. |
| Rendering.RenderPayload | pkg/engine/template.go:221-261 | The result is {} for no payload; for a string it is the output of its preprocessed template, or the parse or execution error; otherwise it is the marshalled outcome of the leaf renderer or one of its errors. |
| Rendering.LeafMeaning | pkg/engine/template.go:237-255 | A string without an action stays as it is. Otherwise its preprocessed template is parsed and executed, and the output becomes typed JSON exactly if the string is a value made of one json helper call; output that is not JSON is then an error. |
| Rendering.ValueLeafMeaning | pkg/engine/template.go:237-255 | So in a rendered payload a value of one json helper call is JSON and every other string is a text. |
| Rendering.KeysStayTexts | pkg/engine/template.go:158-169 | A key is never typed: it is its own text or the output of its template. |
| Rendering.ValidateTemplates | pkg/engine/template.go:265-290 | Reports exactly the texts with an action, keys included, that do not parse; none exactly when all templates of all rules parse. |
| Rendering.ValidatedNeverFailsToParse | pkg/engine/template.go:263-290 | If text without actions parses, a rule that passes validation never fails to render because of a parse error, for any message and order. |
| Rendering.RejectedNeverRenders | pkg/engine/template.go:263-290 | A rule that fails validation never renders, for any message and order. |
| Rendering.CollidingKeysYieldTwoTrees | pkg/engine/template.go:133-142 | The payload {1: 10, "1": 20} is transformed to {"1": 10} or to {"1": 20}, depending on the order of iteration, for every template library. |
| Rendering.CollidingKeysRenderTwice | pkg/engine/template.go:221-261 | So it has two renderings as soon as the two trees are marshalled differently. |
| Spy.WindowMeaning | pkg/spy/server.go:115-122 | The window of a history is the last min(capacity, k) of the k messages since the last clear, and element i has sequence number nextSeq - length + i. |
| Spy.BufferRefinesHistory | pkg/spy/server.go:166-188 | After any run of Record and Clear, what the code stores by appending and dropping the excess is the last min(capacity, k) of the k messages recorded since the last clear, taken from the full history, with consecutive sequence numbers ending before nextSeq. |
| Spy.AnswerMeaning | pkg/spy/server.go:227-242 | A query returns, in order, only messages of the window that have the wanted queue, exchange, routing key, direction, rule, headers and body values and a number above the cursor: all of them without a limit, otherwise the most recent ones, as many as the limit allows. |
| Spy.MatchesMeaning | pkg/spy/server.go:72-118 | The filter accepts a message exactly if each of its fields that is set is met: equal fields, a number above the cursor, every named header with the wanted printed value if one is given, and a nonempty body with every path and the wanted value if one is given. |
| RingBuffers.RingBuffer.constructor | pkg/spy/server.go:125-135 | An empty buffer with the default capacity for sizes that are not positive, sequence numbers from 1. |
| RingBuffers.RingBuffer.Notify | pkg/spy/server.go:137-141 | Closes the current change signal, which was open, and replaces it by a fresh open one. |
| RingBuffers.RingBuffer.Changed | pkg/spy/server.go:143-148 | Returns the current signal, which is still open and is the one that the next Record or Clear closes. |
| RingBuffers.RingBuffer.Record | pkg/spy/server.go:151-189 | The last message is the recorded one field by field, with the next sequence number and direction received if it had none; before it are the old messages, less the oldest one if the buffer was full. In the history it is the next message, and the old signal is closed and replaced. |
| RingBuffers.RingBuffer.Clear | pkg/spy/server.go:251-258 | Empties the buffer, returns how many messages it held, keeps the sequence numbers going, closes and replaces the signal. |
| RingBuffers.RingBuffer.Query | pkg/spy/server.go:228-242 | The loop returns the answer that AnswerMeaning describes and changes nothing. |
| RingBuffers.FilterMatches | pkg/spy/server.go:72-118 | The checks, left at the first that fails, accept exactly the messages that meet every condition of the filter. |
| WaitProtocol.ChannelsCloseOnce | pkg/spy/server.go:137-141 | For any number of requests, recorders and clearers, exactly the superseded change channels are closed, each once. |
| WaitProtocol.NoLostWakeup | pkg/spy/server.go:464-473 | While the channel that a request is parked on is open, the buffer holds fewer matches than it waits for. |
| WaitProtocol.ParkedRequestIsServed | pkg/spy/server.go:464-472 | A parked request for which the buffer has enough can wake up, and unless the buffer changes again answers 200 with the query's result after four more actions. |
| WaitProtocol.CutIsLimited | pkg/spy/server.go:514-527 | Stripping the limit before the wait and cutting the result afterwards equals the limited query. |
| WaitProtocol.AnswerIsOneSnapshot | pkg/spy/server.go:459-479 | Every response is the limited query of one version of the buffer that was current during the request; with status 200 that version has at least n unlimited matches. |
| WaitProtocol.CannotWaitForMoreThanCapacity | pkg/spy/server.go:468-470 | A 200 response implies that n is at most the capacity. |
| WaitProtocol.TimeoutCarriesEnoughExactlyIfOvertaken | pkg/spy/server.go:473-474 | When the timer has fired, the second query finds fewer than n matches as long as the channel the request was parked on is open; it finds at least n exactly if that channel has been closed and the buffer now holds n. |
| WaitProtocol.TimeoutMeansFellShort | pkg/spy/server.go:473-474 | A 408 response is the limited query of one version of the buffer, which has fewer than n matches or comes after a version, current during the request, that had fewer. |
| WaitProtocol.TimeoutMayCarryEnough | pkg/spy/server.go:473-474 | A run in which a 408 response carries as many messages as were waited for. |
| WaitProtocol.LeaverIsNotAnswered | pkg/spy/server.go:475-477 | A request that leaves its wait neither for a change of the buffer nor for its timer is never answered in any later state: its client is gone. |
| WaitProtocol.WaitLoopIsBounded | pkg/spy/server.go:464-478 | A request takes at most five actions, and three more for each change of the buffer. |
| CursorReading.SeenExactly | pkg/spy/server.go:228-242 | The positions that the reader's bookkeeping does not count as missed are exactly those that were in the window at some poll. |
| CursorReading.NothingTwice | pkg/spy/server.go:88-90 | Over any interleaving of records, clears and polls, the polls return each selected message that was in the window at some poll exactly once, in ascending order, and nothing else. |
| CursorReading.ReadingIsCompleteExactlyIfSeen | pkg/spy/server.go:228-242 | The polls together equal the filtered history up to the last poll exactly if every selected message up to there was in the window at some poll. |
| CursorReading.PacedExactlyIfAllSeen | pkg/spy/server.go:166-188 | Every message up to the last poll was in the window at some poll exactly if at each poll at most capacity messages were recorded since the previous one and none of them before a clear. |
| CursorReading.PacedReadingIsComplete | pkg/spy/server.go:166-188 | For such polls, and any filter, the polls together equal the filtered history up to the last poll. |
| CursorReading.OverrunLosesMessage | pkg/spy/server.go:166-188 | Two records and a poll with capacity 1: the first message is in the window at no poll and the reader of everything does not get it. |

## Left out

- AMQP dialing, declarations over the network, acknowledgements, the HTTP server and the handlers apart from waiting and limiting: I/O. A failing network call is an arbitrary result of the step that makes it.
- gjson, `encoding/json`, YAML and `text/template`: foreign code, taken as arbitrary functions. Which texts consist of one `json` helper call (`typedJSONRegex`) is an arbitrary predicate as well. The result of executing a template is a function of its text and the message, so the helpers that return random values or the time are not modelled.
- `Stop`, `dispatch`, the consumer goroutine and the driver's `Close` are modelled only as steps of the transition system, not as methods of a class, because each of them waits for other goroutines; the same holds for `waitForMessages`.
- A goroutine's return together with its `wg.Done` is a single step, and so is a publication together with the read lock around it: sections under a read lock are serialized.
- The driver class of `Engines` declares a topology with an arbitrary result; what a declaration does to the broker is `Feedback.DeclareTopology`, for a broker without queues.
- Connecting again after `Close`, and an engine without a spy recorder.
- The order in which Start subscribes queues is arbitrary in the transition system; `Engines.DesiredQueues` proves that the code sorts them.
- `Validation.Validate`: the checks of the broker URL, port, buffer size and log settings are not modelled, and `strings.TrimSpace` knows the white space of Latin-1 only, since no other property depends on them.
- Warnings and problems are structured values instead of formatted strings.
- Headers exchanges, bindings and queues that exist on the broker outside the configuration, and arguments of declarations: the analysis does not claim to see them.
- `Feedback.UndeclaredExchange`: says nothing about undeclared headers exchanges, for the same reason.
- Topic matching is stated on word sequences; for an empty routing key the words are those of Go's `strings.Split`, a single empty word.
- The wrap-around of the 64-bit sequence number and counters.
- The decoded body of a captured message, which is a function of its bytes, and `normalizeHeaders`: a header value is identified with its printed form.
- `parseFilter`, `parseTimeout`, `compareValues`, rule statistics, configuration defaults, URL masking, logging, the command line and the mock driver: simple or bound to libraries.
- The texts are sequences of characters; the regular expressions are modelled for their ASCII classes, as in the source.
