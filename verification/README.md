# Question-fetch pipeline: a Dafny model

This project models the core of an Android app's question list. The core has two parts.

* **The use case `FetchLastActiveQuestionsUseCase`.** One call asks the endpoint for the
  last active questions. Each raw `QuestionSchema` record (title, id, body) is mapped to a
  `Question` (id, title), in the same order and without the body. Then every registered
  listener is told either "fetched(questions)", with the same list for all, or "fetch failed".
* **The questions-list controller.** Its contract is fixed by `QuestionsListControllerTest`
  and the `UseCaseTd` double in it. It is a small state machine. The state is an optional
  cache of questions, the view's listener registry, and the use-case double (its listener
  registry, its failure switch and its call count). Registration with the use case is
  read from the double's registry, not from the trace. The events are start, stop and
  question clicked. The output is a trace of effects:
  - register/unregister with the view
  - show/hide the progress indication
  - bind questions
  - show the use-case error
  - navigate to a question's details

  A start with a cached list binds that list and fetches nothing. A start without one shows
  progress, registers with the use case and fetches. The double delivers its outcome
  synchronously, so the controller's callbacks run inside the start.

Modules, one per component:

* `Questions` (questions.dfy): the records, the mapping, and the loop that builds the list.
* `Observable` (observable.dfy): the listener registry. Registering appends; unregistering
  removes every entry of that listener.
* `UseCase` (usecase.dfy): endpoint answer, outcome, broadcast, the use case's fetch, and
  the endpoint test double.
* `Controller` (controller.dfy): controller state, effects, the use-case double, and the
  start/stop/click transitions, with `Run` applying a sequence of events.
* `ControllerProperties` (controller_properties.dfy): the controller tests as lemmas, and
  invariants that hold over any run of events.

Listener callbacks are not run. Each one is recorded as a `Notification(listener, outcome)`
value, and the controller handles the ones addressed to its own identity (`ControllerId`).
Listeners are compared by a natural-number identity instead of by object identity. The
endpoint's answer is an input value (`EndpointSuccess(schemas)` or `EndpointFailure`).

The controller's own source file, `QuestionsListController.java`, is not part of this model.
Its behaviour is taken from the controller tests and the `UseCaseTd` double. On a start with
a cached list, the model's controller does not register with the use case, since it has no
fetch to wait for; the tests cannot tell either way.

## Model

| member | source | states |
|---|---|---|
| Questions.MapSchemas | android_application/src/main/java/com/techyourchance/unittesting/questions/FetchLastActiveQuestionsUseCase.java:55-58 | the mapped list has one question per record; question i carries record i's id and title |
| Questions.MapSchemasIsProjection | android_application/src/main/java/com/techyourchance/unittesting/questions/FetchLastActiveQuestionsUseCase.java:56-57 | a list is the mapping of the records if and only if it has their length and, index by index, their ids and titles |
| Questions.MapSchemasAppend | android_application/src/main/java/com/techyourchance/unittesting/questions/FetchLastActiveQuestionsUseCase.java:56-58 | mapping distributes over concatenation, so records are never reordered, dropped or merged |
| Questions.MapSchemasIgnoresBody | android_application/src/main/java/com/techyourchance/unittesting/questions/FetchLastActiveQuestionsUseCase.java:57 | the body never reaches a question: record lists that agree on ids and titles map to equal lists |
| Questions.MapSchemasLoop | android_application/src/main/java/com/techyourchance/unittesting/questions/FetchLastActiveQuestionsUseCase.java:55-58 | the append-per-record loop builds exactly the mapped list |
| Questions.EndpointTestSchemasMapToTestQuestions | android_application/src/test/java/com/techyourchance/unittesting/questions/FetchLastActiveQuestionsUseCaseTest.java:117-121 | the records (title1,id1,body1), (title2,id2,body2) map to [(id1,title1), (id2,title2)], in that order |
| Observable.Register | android_application/src/test/java/com/techyourchance/unittesting/screens/questionslist/QuestionsListControllerTest.java:150-160 | a registered listener comes after every earlier one, and the earlier ones keep their order |
| Observable.Unregister | android_application/src/test/java/com/techyourchance/unittesting/screens/questionslist/QuestionsListControllerTest.java:163-174 | after unregistering, the listener is absent; every other listener is present exactly when it was before; a listener that was not registered leaves the registry unchanged |
| Observable.UnregisterAppend | android_application/src/test/java/com/techyourchance/unittesting/screens/questionslist/QuestionsListControllerTest.java:163-174 | unregistering splits over concatenation, so the other listeners keep their relative order |
| Observable.UnregisterUndoesRegister | android_application/src/test/java/com/techyourchance/unittesting/screens/questionslist/QuestionsListControllerTest.java:163-174 | registering a listener that was not registered and then unregistering it gives back the original registry |
| Observable.RegisterFreshOnce | android_application/src/test/java/com/techyourchance/unittesting/screens/questionslist/QuestionsListControllerTest.java:150-160 | a listener that was not registered is listed exactly once after registering it |
| UseCase.OutcomeOf | android_application/src/main/java/com/techyourchance/unittesting/questions/FetchLastActiveQuestionsUseCase.java:35-45 | the outcome is "fetched" exactly when the endpoint succeeded, and then it holds the projection of the records |
| UseCase.Broadcast | android_application/src/main/java/com/techyourchance/unittesting/questions/FetchLastActiveQuestionsUseCase.java:48-62 | one callback per registered listener, in registry order, all with the same outcome |
| UseCase.NotifySuccess | android_application/src/main/java/com/techyourchance/unittesting/questions/FetchLastActiveQuestionsUseCase.java:54-62 | every listener, in order, gets a "fetched" callback whose list is the projection of the records |
| UseCase.NotifyFailure | android_application/src/main/java/com/techyourchance/unittesting/questions/FetchLastActiveQuestionsUseCase.java:48-52 | every listener, in order, gets the failure callback and no list |
| UseCase.FetchAndNotify | android_application/src/main/java/com/techyourchance/unittesting/questions/FetchLastActiveQuestionsUseCase.java:34-46 | one fetch reaches each listener once; on success all get the mapped list, on failure all get the failure callback |
| UseCase.FetchReachesExactlyTheRegistry | android_application/src/main/java/com/techyourchance/unittesting/questions/FetchLastActiveQuestionsUseCase.java:48-62 | the recipients of a fetch, in order, are exactly the registered listeners: the broadcast neither adds nor drops a listener |
| UseCase.OneOutcomeKindPerFetch | android_application/src/main/java/com/techyourchance/unittesting/questions/FetchLastActiveQuestionsUseCase.java:35-45 | all listeners get the same outcome; it is "fetched" if and only if the endpoint succeeded and "failed" if and only if it failed |
| UseCase.FetchLastActiveQuestionsAndNotify | android_application/src/main/java/com/techyourchance/unittesting/questions/FetchLastActiveQuestionsUseCase.java:34-62 | the fetch written as the source's loops (map each record, then call each listener) produces exactly the callbacks of FetchAndNotify |
| UseCase.EndpointTd | android_application/src/test/java/com/techyourchance/unittesting/questions/FetchLastActiveQuestionsUseCaseTest.java:113-123 | the endpoint double fails exactly when it is set to fail, with no records; otherwise it answers the records id1 and id2 |
| UseCase.TwoListenersNotifiedWithCorrectData | android_application/src/test/java/com/techyourchance/unittesting/questions/FetchLastActiveQuestionsUseCaseTest.java:54-71 | with listeners 1 and 2 and a successful endpoint, both receive exactly the expected questions and no failure |
| UseCase.TwoListenersNotifiedOfFailure | android_application/src/test/java/com/techyourchance/unittesting/questions/FetchLastActiveQuestionsUseCaseTest.java:75-88 | with listeners 1 and 2 and a failing endpoint, both receive the failure callback and no list |
| Controller.DoubleFetch | android_application/src/test/java/com/techyourchance/unittesting/screens/questionslist/QuestionsListControllerTest.java:216-230 | one fetch on the double raises the call count by exactly one, leaves its registry as it was, and gives every registered listener one callback with the same outcome: the failure callback when the double is set to fail, otherwise the expected questions |
| Controller.OnStop | android_application/src/test/java/com/techyourchance/unittesting/screens/questionslist/QuestionsListControllerTest.java:163-174 | after stop the controller is in neither registry, other listeners are kept, the cache, call count and failure switch are unchanged, and the only effect is the view's unregister call |
| Controller.Handle | android_application/src/test/java/com/techyourchance/unittesting/screens/questionslist/QuestionsListControllerTest.java:219-229 | a callback addressed to another listener changes nothing; one addressed to the controller hides progress, then binds and caches the list if it was fetched, or shows the error and keeps the cache if it failed |
| Controller.Deliver | android_application/src/test/java/com/techyourchance/unittesting/screens/questionslist/QuestionsListControllerTest.java:219-229 | handling the callbacks of a fetch never changes the view's registry or the use-case double |
| Controller.OnStart | android_application/src/test/java/com/techyourchance/unittesting/screens/questionslist/QuestionsListControllerTest.java:56-120 | a start always registers with the view first; with a cached list it only binds that list and leaves cache and double alone; without one it shows progress, registers with the use case and makes exactly one fetch |
| Controller.OnQuestionClicked | android_application/src/test/java/com/techyourchance/unittesting/screens/questionslist/QuestionsListControllerTest.java:177-185 | a click changes no state and has one effect, navigation to the clicked question's id |
| ControllerProperties.DeliverBroadcast | android_application/src/test/java/com/techyourchance/unittesting/screens/questionslist/QuestionsListControllerTest.java:219-229 | the controller reacts once for each time it is registered (hide progress, then bind or show error); it caches a fetched list only if it was reached; registries and double are unchanged |
| ControllerProperties.DeliverBroadcastEffects | android_application/src/test/java/com/techyourchance/unittesting/screens/questionslist/QuestionsListControllerTest.java:219-229 | the effects of one broadcast are the controller's reaction repeated once per time it is registered |
| ControllerProperties.DeliverBroadcastState | android_application/src/test/java/com/techyourchance/unittesting/screens/questionslist/QuestionsListControllerTest.java:219-229 | after one broadcast the registries and the double are unchanged, and a fetched list is cached exactly when the controller was among the recipients |
| ControllerProperties.StartWithCacheBindsFromCache | android_application/src/test/java/com/techyourchance/unittesting/screens/questionslist/QuestionsListControllerTest.java:107-120 | a start with a cached list registers with the view and binds that list; no progress, no fetch, cache and double unchanged |
| ControllerProperties.StartWithoutCacheFetches | android_application/src/test/java/com/techyourchance/unittesting/screens/questionslist/QuestionsListControllerTest.java:56-103 | a start without a cache gives the exact trace (register with the view, show progress, hide progress, then bind on success or error on failure); it caches on success only and counts one fetch |
| ControllerProperties.StartBindsIffFetchSucceeds | android_application/src/test/java/com/techyourchance/unittesting/screens/questionslist/QuestionsListControllerTest.java:94-146 | the view is bound if and only if the fetch succeeded; the error is shown once on failure and never on success |
| ControllerProperties.FirstStartShowsThenHidesProgress | android_application/src/test/java/com/techyourchance/unittesting/screens/questionslist/QuestionsListControllerTest.java:56-90 | the first start shows progress and later hides it, whatever the fetch outcome |
| ControllerProperties.FirstStartSuccessBindsQuestions | android_application/src/test/java/com/techyourchance/unittesting/screens/questionslist/QuestionsListControllerTest.java:94-103 | the first start with a successful fetch binds the expected questions |
| ControllerProperties.FirstStartFailureShowsErrorOnce | android_application/src/test/java/com/techyourchance/unittesting/screens/questionslist/QuestionsListControllerTest.java:123-146 | the first start with a failed fetch hides progress, shows the error exactly once, and never binds |
| ControllerProperties.SecondStartBindsFromCache | android_application/src/test/java/com/techyourchance/unittesting/screens/questionslist/QuestionsListControllerTest.java:107-120 | two starts after success bind the expected questions twice in total, and the fetch count is 1 |
| ControllerProperties.FirstStartRegistersListeners | android_application/src/test/java/com/techyourchance/unittesting/screens/questionslist/QuestionsListControllerTest.java:150-160 | after the first start the controller is registered with the view and with the use case |
| ControllerProperties.StopAfterStartUnregisters | android_application/src/test/java/com/techyourchance/unittesting/screens/questionslist/QuestionsListControllerTest.java:163-174 | stop after start unregisters the controller from the view and from the use case |
| ControllerProperties.StoppedControllerIsNotNotified | android_application/src/test/java/com/techyourchance/unittesting/screens/questionslist/QuestionsListControllerTest.java:241-247 | after stop, a fetch of the use case sends no callback to the controller and changes nothing of its state |
| ControllerProperties.ClickNavigatesToQuestion | android_application/src/test/java/com/techyourchance/unittesting/screens/questionslist/QuestionsListControllerTest.java:177-185 | a click in any state, including before any start, navigates to the question's id and changes no state |
| ControllerProperties.CachedListIsNeverRefetched | android_application/src/test/java/com/techyourchance/unittesting/screens/questionslist/QuestionsListControllerTest.java:107-120 | once a list is cached, no sequence of events changes it or makes another fetch |
| ControllerProperties.StepKeepsFetchedAtMostOnce | android_application/src/test/java/com/techyourchance/unittesting/screens/questionslist/QuestionsListControllerTest.java:107-120 | with a succeeding double, every event keeps the invariant "no fetch and no cache, or one fetch and the questions cached" |
| ControllerProperties.SuccessfulRunFetchesAtMostOnce | android_application/src/test/java/com/techyourchance/unittesting/screens/questionslist/QuestionsListControllerTest.java:107-120 | with a succeeding double, any sequence of events keeps that invariant, so at most one fetch is ever made |
| ControllerProperties.FreshControllerFetchesAtMostOnce | android_application/src/test/java/com/techyourchance/unittesting/screens/questionslist/QuestionsListControllerTest.java:107-120 | from a fresh controller and a succeeding double, any sequence of events makes at most one fetch |
| ControllerProperties.FailingStepNeverBinds | android_application/src/test/java/com/techyourchance/unittesting/screens/questionslist/QuestionsListControllerTest.java:136-146 | with a failing double and no cache, any one event keeps the cache empty, binds nothing, and fetches exactly when it is a start |
| ControllerProperties.FailingRunRetriesEveryStart | android_application/src/test/java/com/techyourchance/unittesting/screens/questionslist/QuestionsListControllerTest.java:216-221 | with a failing double, over any sequence of events nothing is ever cached, nothing is ever bound to the view, and every start makes one more fetch |

## Left out

- The Android view layer: the list view, the toasts helper and the screens navigator are mock objects. Each of their calls is recorded as an `Effect` in the trace.
- The real network endpoint and asynchronous delivery: `FetchLastActiveQuestionsEndpoint` is not part of this model. Its answer is an input, and callbacks are delivered synchronously, as both test doubles do. In-flight fetches, and a stop before a late callback arrives, are therefore not modelled.
- `BaseObservable` internals are not part of this model. Registering appends and unregistering removes every entry. No policy for duplicate registration is claimed beyond that, and no iteration order beyond registration order.
- The double's empty-list-on-first-call switch (`mEmptyListOnFirstCall`): no test exercises it, so the double always delivers the expected questions on success.
- `QuestionsTestData` is not part of this model. The expected list QUESTIONS is taken to be [(id1,title1), (id2,title2)], the mapping of the endpoint double's records. The clicked question can be any `Question`.
- `DemoTest`: it only stubs a mocked addition to return 20, so there is no logic to model.
- Mockito verification, JUnit runners and object identity: listeners are compared by a number.
- The controller's Idle/Loading/Loaded/Error phases are not a separate tag. As in the source, the phase follows from whether a cache exists and from call order.
- Observable.Register: states the order of the registry after registering, and nothing about how `BaseObservable` stores its listeners.
