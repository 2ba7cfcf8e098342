/** The questions-list controller, driven by its lifecycle and by clicks, against the
    use-case test double.

    The controller keeps an optional cache of questions. On start it registers with the
    view; with a cached list it binds that list and fetches nothing; without one it shows
    progress, registers with the use case and asks it to fetch. The double delivers the
    outcome synchronously to every listener registered with it, so the controller's
    callbacks run inside the start. On stop it unregisters from both; a click navigates.

    The view, the toasts helper and the navigator are recorded as effects appended to a
    trace; the use case is the test double's state (listeners, failure switch, call count).
 */
module Controller {
  import opened Questions
  import opened Observable
  import opened UseCase

  datatype Option<T> = None | Some(value: T)

  /** The controller's own listener identity, as the view and the use case see it. */
  const ControllerId: ListenerId := 0

  /** The use-case test double: its listener registry, whether it is set to fail, and how
      many fetches it has been asked for. On success it delivers the expected questions. */
  datatype UseCaseDouble = UseCaseDouble(listeners: seq<ListenerId>, failure: bool, callCount: nat)

  /** One call observed on the view, the toasts helper or the navigator. Registration with
      the use case is not an effect: it is the double's listener registry in the state. */
  datatype Effect =
    | RegisterViewListener
    | UnregisterViewListener
    | ShowProgressIndication
    | HideProgressIndication
    | BindQuestions(questions: seq<Question>)
    | ShowUseCaseError
    | ToQuestionDetails(id: string)

  /** The controller's cache, the view's listener registry and the use-case double. */
  datatype State = State(cache: Option<seq<Question>>, viewListeners: seq<ListenerId>, useCase: UseCaseDouble)

  /** The state after an event and the effects the event produced, in order. */
  datatype Transition = Transition(state: State, effects: seq<Effect>)

  /** What the double's fetch returns: its new state and the callbacks it made. */
  datatype FetchStep = FetchStep(useCase: UseCaseDouble, notes: seq<Notification>)

  /** The lifecycle and user events the controller reacts to. */
  datatype Event = Start | Stop | QuestionClicked(question: Question)

  /** A fresh controller bound to a fresh double: no cache, nobody registered, no fetch yet. */
  function Init(failure: bool): State
  {
    State(None, [], UseCaseDouble([], failure, 0))
  }

  /** What the double tells its listeners. */
  function DoubleOutcome(failure: bool): Outcome
  {
    if failure then FetchFailed else Fetched(TestQuestions)
  }

  /** One fetch on the double: the call count goes up by one, the registry is left as it
      is, and every registered listener gets one callback with the same outcome. */
  function DoubleFetch(uc: UseCaseDouble): (f: FetchStep)
    ensures f.useCase.callCount == uc.callCount + 1
    ensures f.useCase.listeners == uc.listeners && f.useCase.failure == uc.failure
    ensures |f.notes| == |uc.listeners|
    ensures forall i :: 0 <= i < |uc.listeners| ==>
      && f.notes[i].listener == uc.listeners[i]
      && f.notes[i].outcome == (if uc.failure then FetchFailed else Fetched(TestQuestions))
  {
    FetchStep(uc.(callCount := uc.callCount + 1), Broadcast(uc.listeners, DoubleOutcome(uc.failure)))
  }

  /** The controller's reaction to one outcome delivered to it. */
  function Reaction(o: Outcome): seq<Effect>
  {
    match o
    case Fetched(qs) => [HideProgressIndication, BindQuestions(qs)]
    case FetchFailed => [HideProgressIndication, ShowUseCaseError]
  }

  /** One callback: the controller reacts to those addressed to it (caching a fetched list)
      and is untouched by those addressed to other listeners. */
  function Handle(s: State, n: Notification): (t: Transition)
    ensures n.listener != ControllerId ==> t == Transition(s, [])
    ensures n.listener == ControllerId ==>
      && |t.effects| == 2 && t.effects[0] == HideProgressIndication
      && (t.effects[1].BindQuestions? <==> n.outcome.Fetched?)
      && (t.effects[1] == ShowUseCaseError <==> n.outcome.FetchFailed?)
      && (n.outcome.Fetched? ==> t.effects[1].questions == n.outcome.questions
                                 && t.state.cache == Some(n.outcome.questions))
      && (n.outcome.FetchFailed? ==> t.state.cache == s.cache)
    ensures t.state.viewListeners == s.viewListeners && t.state.useCase == s.useCase
  {
    if n.listener != ControllerId then Transition(s, [])
    else match n.outcome
      case Fetched(qs) => Transition(s.(cache := Some(qs)), Reaction(n.outcome))
      case FetchFailed => Transition(s, Reaction(n.outcome))
  }

  /** The callbacks of one fetch, handled in delivery order. */
  function Deliver(s: State, notes: seq<Notification>): (t: Transition)
    ensures t.state.viewListeners == s.viewListeners && t.state.useCase == s.useCase
    decreases |notes|
  {
    if |notes| == 0 then Transition(s, [])
    else
      var t1 := Handle(s, notes[0]);
      var t2 := Deliver(t1.state, notes[1..]);
      Transition(t2.state, t1.effects + t2.effects)
  }

  /** `e` repeated `n` times. */
  function Repeat(e: seq<Effect>, n: nat): seq<Effect>
  {
    if n == 0 then [] else e + Repeat(e, n - 1)
  }

  /** onStart: register with the view; bind from the cache if there is one, otherwise show
      progress, register with the use case and fetch. */
  function OnStart(s: State): (t: Transition)
    ensures ControllerId in t.state.viewListeners && |t.effects| >= 2 && t.effects[0] == RegisterViewListener
    ensures s.cache.Some? ==>
      && t.effects == [RegisterViewListener, BindQuestions(s.cache.value)]
      && t.state.cache == s.cache && t.state.useCase == s.useCase
    ensures s.cache.None? ==>
      && t.effects[1] == ShowProgressIndication
      && ControllerId in t.state.useCase.listeners
      && t.state.useCase.callCount == s.useCase.callCount + 1
      && t.state.useCase.failure == s.useCase.failure
  {
    var viewListeners := Register(s.viewListeners, ControllerId);
    match s.cache
    case Some(qs) =>
      Transition(s.(viewListeners := viewListeners), [RegisterViewListener, BindQuestions(qs)])
    case None =>
      var uc := s.useCase.(listeners := Register(s.useCase.listeners, ControllerId));
      var f := DoubleFetch(uc);
      var t := Deliver(State(s.cache, viewListeners, f.useCase), f.notes);
      Transition(t.state, [RegisterViewListener, ShowProgressIndication] + t.effects)
  }

  /** onStop: unregister from the view and from the use case; the cache is kept. */
  function OnStop(s: State): (t: Transition)
    ensures ControllerId !in t.state.viewListeners && ControllerId !in t.state.useCase.listeners
    ensures forall l :: l != ControllerId ==> (l in t.state.viewListeners <==> l in s.viewListeners)
    ensures forall l :: l != ControllerId ==> (l in t.state.useCase.listeners <==> l in s.useCase.listeners)
    ensures t.state.cache == s.cache && t.state.useCase.callCount == s.useCase.callCount
    ensures t.state.useCase.failure == s.useCase.failure
    ensures t.effects == [UnregisterViewListener]
  {
    Transition(
      State(s.cache, Unregister(s.viewListeners, ControllerId),
            s.useCase.(listeners := Unregister(s.useCase.listeners, ControllerId))),
      [UnregisterViewListener])
  }

  /** onQuestionClicked: navigate to the clicked question's details, whatever the state. */
  function OnQuestionClicked(s: State, q: Question): (t: Transition)
    ensures t.state == s
    ensures |t.effects| == 1 && t.effects[0].ToQuestionDetails? && t.effects[0].id == q.id
  {
    Transition(s, [ToQuestionDetails(q.id)])
  }

  /** One event dispatched to the matching controller entry point. */
  function Step(s: State, e: Event): Transition
  {
    match e
    case Start => OnStart(s)
    case Stop => OnStop(s)
    case QuestionClicked(q) => OnQuestionClicked(s, q)
  }

  /** A sequence of events applied in order, effects concatenated. */
  function Run(s: State, events: seq<Event>): Transition
    decreases |events|
  {
    if |events| == 0 then Transition(s, [])
    else
      var t1 := Step(s, events[0]);
      var t2 := Run(t1.state, events[1..]);
      Transition(t2.state, t1.effects + t2.effects)
  }

  /** Number of start events in `events`. */
  function Starts(events: seq<Event>): nat
  {
    if |events| == 0 then 0 else (if events[0].Start? then 1 else 0) + Starts(events[1..])
  }
}
