/** What the questions-list controller promises: the behaviour each controller test
    asserts, and the invariants behind the cache-or-fetch decision over any run of events.
 */
module ControllerProperties {
  import opened Questions
  import opened Observable
  import opened UseCase
  import opened Controller

  /** Handling the callbacks of one broadcast: the controller reacts once per time it is
      registered, caches a fetched list if it was reached at all, and changes nothing else. */
  lemma DeliverBroadcast(s: State, listeners: seq<ListenerId>, o: Outcome)
    ensures Deliver(s, Broadcast(listeners, o)).effects == Repeat(Reaction(o), multiset(listeners)[ControllerId])
    ensures Deliver(s, Broadcast(listeners, o)).state.viewListeners == s.viewListeners
    ensures Deliver(s, Broadcast(listeners, o)).state.useCase == s.useCase
    ensures Deliver(s, Broadcast(listeners, o)).state.cache
         == (if ControllerId in listeners && o.Fetched? then Some(o.questions) else s.cache)
  {
    DeliverBroadcastEffects(s, listeners, o);
    DeliverBroadcastState(s, listeners, o);
  }

  /** The effects of handling one broadcast: the controller's reaction, once per registration. */
  lemma {:induction false} DeliverBroadcastEffects(s: State, listeners: seq<ListenerId>, o: Outcome)
    ensures Deliver(s, Broadcast(listeners, o)).effects == Repeat(Reaction(o), multiset(listeners)[ControllerId])
    decreases |listeners|
  {
    if |listeners| > 0 {
      var head: ListenerId := listeners[0];
      var tail: seq<ListenerId> := listeners[1..];
      assert listeners == [head] + tail;
      assert multiset(listeners) == multiset([head]) + multiset(tail);
      var t1 := Handle(s, Notification(head, o));
      DeliverFirst(s, listeners, o);
      DeliverBroadcastEffects(t1.state, tail, o);
      var n := multiset(listeners)[ControllerId];
      var k := multiset(tail)[ControllerId];
      if head == ControllerId {
        assert t1.effects == Reaction(o);
        assert n == k + 1;
      } else {
        assert t1.effects == [];
        assert n == k;
      }
    }
  }

  /** The state after handling one broadcast: registries and double untouched, and the
      fetched list cached exactly when the controller was among the recipients. */
  lemma {:induction false} DeliverBroadcastState(s: State, listeners: seq<ListenerId>, o: Outcome)
    ensures Deliver(s, Broadcast(listeners, o)).state.viewListeners == s.viewListeners
    ensures Deliver(s, Broadcast(listeners, o)).state.useCase == s.useCase
    ensures Deliver(s, Broadcast(listeners, o)).state.cache
         == (if ControllerId in listeners && o.Fetched? then Some(o.questions) else s.cache)
    decreases |listeners|
  {
    if |listeners| > 0 {
      var head: ListenerId := listeners[0];
      var tail: seq<ListenerId> := listeners[1..];
      assert listeners == [head] + tail;
      var t1 := Handle(s, Notification(head, o));
      DeliverFirst(s, listeners, o);
      DeliverBroadcastState(t1.state, tail, o);
    }
  }

  /** The first callback of a broadcast is handled before the rest. */
  lemma DeliverFirst(s: State, listeners: seq<ListenerId>, o: Outcome)
    requires |listeners| > 0
    ensures var t1 := Handle(s, Notification(listeners[0], o));
      var rest := Deliver(t1.state, Broadcast(listeners[1..], o));
      Deliver(s, Broadcast(listeners, o)) == Transition(rest.state, t1.effects + rest.effects)
  {
  }

  /** onStart with a cached list: register with the view and bind the cached list; no
      progress, no use-case registration, no fetch, and the cache is kept. */
  lemma StartWithCacheBindsFromCache(s: State)
    requires s.cache.Some?
    ensures var t := OnStart(s);
      && t.effects == [RegisterViewListener, BindQuestions(s.cache.value)]
      && t.state.cache == s.cache
      && t.state.useCase == s.useCase
      && ControllerId in t.state.viewListeners
  {
  }

  /** onStart without a cached list, the controller not yet registered with the use case:
      progress is shown, the controller registers and one fetch is made; on success the
      progress is hidden and the fetched list is cached and bound, on failure the progress
      is hidden and the error is shown, with the cache left empty. */
  lemma StartWithoutCacheFetches(s: State)
    requires s.cache.None?
    requires ControllerId !in s.useCase.listeners
    ensures var t := OnStart(s);
      && t.effects == [RegisterViewListener, ShowProgressIndication]
                      + (if s.useCase.failure then [HideProgressIndication, ShowUseCaseError]
                         else [HideProgressIndication, BindQuestions(TestQuestions)])
      && t.state.cache == (if s.useCase.failure then None else Some(TestQuestions))
      && t.state.useCase.callCount == s.useCase.callCount + 1
      && t.state.useCase.failure == s.useCase.failure
      && ControllerId in t.state.viewListeners
      && ControllerId in t.state.useCase.listeners
  {
    var uc := s.useCase.(listeners := Register(s.useCase.listeners, ControllerId));
    RegisterFreshOnce(s.useCase.listeners, ControllerId);
    var o := DoubleOutcome(s.useCase.failure);
    DeliverBroadcast(State(s.cache, Register(s.viewListeners, ControllerId), DoubleFetch(uc).useCase), uc.listeners, o);
    assert Repeat(Reaction(o), 1) == Reaction(o);
  }

  /** The view is bound exactly when the fetch succeeds, and the error is shown exactly
      when it fails, once. */
  lemma StartBindsIffFetchSucceeds(s: State)
    requires s.cache.None?
    requires ControllerId !in s.useCase.listeners
    ensures var t := OnStart(s);
      && ((exists i :: 0 <= i < |t.effects| && t.effects[i].BindQuestions?) <==> !s.useCase.failure)
      && multiset(t.effects)[ShowUseCaseError] == (if s.useCase.failure then 1 else 0)
  {
    StartWithoutCacheFetches(s);
    var t := OnStart(s);
    if !s.useCase.failure {
      assert t.effects[3].BindQuestions?;
    }
  }

  /** First start on a fresh controller: progress is shown, then hidden. */
  lemma FirstStartShowsThenHidesProgress(failure: bool)
    ensures var t := OnStart(Init(failure));
      && |t.effects| == 4
      && t.effects[1] == ShowProgressIndication
      && t.effects[2] == HideProgressIndication
  {
    StartWithoutCacheFetches(Init(failure));
  }

  /** First start with a successful fetch binds the expected questions to the view. */
  lemma FirstStartSuccessBindsQuestions()
    ensures BindQuestions(TestQuestions) in OnStart(Init(false)).effects
  {
    StartWithoutCacheFetches(Init(false));
  }

  /** First start with a failed fetch shows the error exactly once and never binds. */
  lemma FirstStartFailureShowsErrorOnce()
    ensures var t := OnStart(Init(true));
      && multiset(t.effects)[ShowUseCaseError] == 1
      && HideProgressIndication in t.effects
      && forall i :: 0 <= i < |t.effects| ==> !t.effects[i].BindQuestions?
  {
    StartWithoutCacheFetches(Init(true));
  }

  /** Two starts after a successful fetch: the questions are bound twice in all, the
      second time from the cache, and the use case is asked to fetch only once. */
  lemma SecondStartBindsFromCache()
    ensures var t1 := OnStart(Init(false));
      var t2 := OnStart(t1.state);
      && multiset(t1.effects + t2.effects)[BindQuestions(TestQuestions)] == 2
      && t2.state.useCase.callCount == 1
  {
  }

  /** After the first start the controller is registered with the view and with the use case. */
  lemma FirstStartRegistersListeners(failure: bool)
    ensures var t := OnStart(Init(failure));
      && RegisterViewListener in t.effects
      && ControllerId in t.state.viewListeners
      && ControllerId in t.state.useCase.listeners
  {
  }

  /** Stop after start leaves the controller registered with neither the view nor the use case. */
  lemma StopAfterStartUnregisters(failure: bool)
    ensures var t := OnStop(OnStart(Init(failure)).state);
      && UnregisterViewListener in t.effects
      && ControllerId !in t.state.viewListeners
      && ControllerId !in t.state.useCase.listeners
  {
  }

  /** Once stopped, the controller is not reached by a later fetch of the use case: no
      callback is addressed to it and handling them changes nothing of its own. */
  lemma StoppedControllerIsNotNotified(s: State)
    ensures var stopped := OnStop(s).state;
      var f := DoubleFetch(stopped.useCase);
      && (forall i :: 0 <= i < |f.notes| ==> f.notes[i].listener != ControllerId)
      && Deliver(stopped, f.notes) == Transition(stopped, [])
  {
    var stopped := OnStop(s).state;
    var o := DoubleOutcome(stopped.useCase.failure);
    DeliverBroadcast(stopped, stopped.useCase.listeners, o);
    assert multiset(stopped.useCase.listeners)[ControllerId] == 0;
  }

  /** A click navigates to the clicked question, in any state and before any start, and
      changes neither the cache nor any registration. */
  lemma ClickNavigatesToQuestion(s: State, q: Question)
    ensures var t := Step(s, QuestionClicked(q));
      && t.effects == [ToQuestionDetails(q.id)]
      && t.state == s
  {
  }

  /** Once a list is cached, no event changes it and no further fetch is made. */
  lemma {:induction false} CachedListIsNeverRefetched(s: State, events: seq<Event>)
    requires s.cache.Some?
    ensures Run(s, events).state.cache == s.cache
    ensures Run(s, events).state.useCase.callCount == s.useCase.callCount
    decreases |events|
  {
    if |events| > 0 {
      var t1 := Step(s, events[0]);
      assert t1.state.cache == s.cache && t1.state.useCase.callCount == s.useCase.callCount;
      CachedListIsNeverRefetched(t1.state, events[1..]);
    }
  }

  /** With a double that succeeds: either nothing was fetched and nothing is cached (and the
      controller is not registered with the use case), or exactly one fetch was made and
      the expected questions are cached. */
  ghost predicate FetchedAtMostOnce(s: State)
  {
    && !s.useCase.failure
    && ((s.useCase.callCount == 0 && s.cache.None? && ControllerId !in s.useCase.listeners)
     || (s.useCase.callCount == 1 && s.cache == Some(TestQuestions)))
  }

  /** Every event keeps FetchedAtMostOnce. */
  lemma StepKeepsFetchedAtMostOnce(s: State, e: Event)
    requires FetchedAtMostOnce(s)
    ensures FetchedAtMostOnce(Step(s, e).state)
  {
    match e
    case Start =>
      if s.cache.None? {
        StartWithoutCacheFetches(s);
      }
    case Stop =>
    case QuestionClicked(_) =>
  }

  /** With a succeeding use case, any run from a fresh controller fetches at most once. */
  lemma {:induction false} SuccessfulRunFetchesAtMostOnce(s: State, events: seq<Event>)
    requires FetchedAtMostOnce(s)
    ensures FetchedAtMostOnce(Run(s, events).state)
    ensures Run(s, events).state.useCase.callCount <= 1
    decreases |events|
  {
    if |events| > 0 {
      StepKeepsFetchedAtMostOnce(s, events[0]);
      SuccessfulRunFetchesAtMostOnce(Step(s, events[0]).state, events[1..]);
    }
  }

  /** True when no effect in `effects` binds questions to the view. */
  ghost predicate NoBind(effects: seq<Effect>)
  {
    forall i :: 0 <= i < |effects| ==> !effects[i].BindQuestions?
  }

  /** Repeating a reaction to a failure never binds. */
  lemma {:induction false} RepeatedFailureNeverBinds(n: nat)
    ensures NoBind(Repeat(Reaction(FetchFailed), n))
  {
    if n > 0 {
      RepeatedFailureNeverBinds(n - 1);
      var r := Repeat(Reaction(FetchFailed), n - 1);
      assert Repeat(Reaction(FetchFailed), n) == [HideProgressIndication, ShowUseCaseError] + r;
    }
  }

  /** With a failing use case and nothing cached, any event keeps the cache empty, never
      binds, and fetches exactly when it is a start. */
  lemma FailingStepNeverBinds(s: State, e: Event)
    requires s.useCase.failure && s.cache.None?
    ensures var t := Step(s, e);
      && t.state.cache.None?
      && t.state.useCase.failure
      && t.state.useCase.callCount == s.useCase.callCount + (if e.Start? then 1 else 0)
      && NoBind(t.effects)
  {
    if e.Start? {
      var uc := s.useCase.(listeners := Register(s.useCase.listeners, ControllerId));
      DeliverBroadcast(State(s.cache, Register(s.viewListeners, ControllerId), DoubleFetch(uc).useCase),
                       uc.listeners, FetchFailed);
      RepeatedFailureNeverBinds(multiset(uc.listeners)[ControllerId]);
    }
  }

  /** With a failing use case nothing is ever cached and nothing is ever bound to the view,
      so every start fetches again. */
  lemma {:induction false} FailingRunRetriesEveryStart(s: State, events: seq<Event>)
    requires s.useCase.failure && s.cache.None?
    ensures Run(s, events).state.cache.None?
    ensures Run(s, events).state.useCase.callCount == s.useCase.callCount + Starts(events)
    ensures forall i :: 0 <= i < |Run(s, events).effects| ==> !Run(s, events).effects[i].BindQuestions?
    decreases |events|
  {
    if |events| > 0 {
      var t1 := Step(s, events[0]);
      FailingStepNeverBinds(s, events[0]);
      FailingRunRetriesEveryStart(t1.state, events[1..]);
      var t2 := Run(t1.state, events[1..]);
      assert Run(s, events).effects == t1.effects + t2.effects;
      assert NoBind(t1.effects + t2.effects);
    }
  }

  /** A fresh controller whose use case succeeds fetches at most once over any run. */
  lemma FreshControllerFetchesAtMostOnce(events: seq<Event>)
    ensures Run(Init(false), events).state.useCase.callCount <= 1
  {
    SuccessfulRunFetchesAtMostOnce(Init(false), events);
  }
}
