/** The fetch-last-active-questions use case.

    One fetch asks the endpoint once. The endpoint answers either with a list of raw
    records or with a failure; the use case maps the records to questions and tells every
    registered listener "fetched(questions)", or tells every registered listener "fetch
    failed". The endpoint's answer is an input here, delivered synchronously, and a
    listener callback is recorded as a notification value rather than run.
 */
module UseCase {
  import opened Questions
  import opened Observable

  /** What the endpoint answers to one request. */
  datatype EndpointResult = EndpointSuccess(schemas: seq<Schema>) | EndpointFailure

  /** What a listener is told: the fetched list, or that the fetch failed (no payload). */
  datatype Outcome = Fetched(questions: seq<Question>) | FetchFailed

  /** One listener callback: `listener` receives `outcome`. */
  datatype Notification = Notification(listener: ListenerId, outcome: Outcome)

  /** The endpoint's answer turned into what the listeners are told. */
  function OutcomeOf(e: EndpointResult): (o: Outcome)
    ensures o.Fetched? <==> e.EndpointSuccess?
    ensures o.Fetched? ==> Projects(e.schemas, o.questions)
  {
    match e
    case EndpointSuccess(schemas) => Fetched(MapSchemas(schemas))
    case EndpointFailure => FetchFailed
  }

  /** Delivers `o` to every registered listener, one callback each, in registry order. */
  function Broadcast(listeners: seq<ListenerId>, o: Outcome): (notes: seq<Notification>)
    ensures |notes| == |listeners|
    ensures forall i :: 0 <= i < |listeners| ==> notes[i] == Notification(listeners[i], o)
  {
    if |listeners| == 0 then [] else [Notification(listeners[0], o)] + Broadcast(listeners[1..], o)
  }

  /** Success path: the records are mapped once and the same list goes to every listener. */
  function NotifySuccess(listeners: seq<ListenerId>, schemas: seq<Schema>): (notes: seq<Notification>)
    ensures |notes| == |listeners|
    ensures forall i :: 0 <= i < |listeners| ==>
      && notes[i].listener == listeners[i]
      && notes[i].outcome.Fetched?
      && Projects(schemas, notes[i].outcome.questions)
  {
    Broadcast(listeners, Fetched(MapSchemas(schemas)))
  }

  /** Failure path: every listener is told the fetch failed, and nobody receives a list. */
  function NotifyFailure(listeners: seq<ListenerId>): (notes: seq<Notification>)
    ensures |notes| == |listeners|
    ensures forall i :: 0 <= i < |listeners| ==> notes[i].listener == listeners[i] && notes[i].outcome == FetchFailed
  {
    Broadcast(listeners, FetchFailed)
  }

  /** One fetch: the endpoint is asked once and its answer picks the success or the failure path. */
  function FetchAndNotify(listeners: seq<ListenerId>, e: EndpointResult): (notes: seq<Notification>)
    ensures |notes| == |listeners|
    ensures forall i :: 0 <= i < |listeners| ==> notes[i].listener == listeners[i]
    ensures e.EndpointSuccess? ==> forall i :: 0 <= i < |notes| ==> notes[i].outcome == Fetched(MapSchemas(e.schemas))
    ensures e.EndpointFailure? ==> forall i :: 0 <= i < |notes| ==> notes[i].outcome == FetchFailed
  {
    match e
    case EndpointSuccess(schemas) => NotifySuccess(listeners, schemas)
    case EndpointFailure => NotifyFailure(listeners)
  }

  /** The listeners the notifications go to, in delivery order. */
  function Recipients(notes: seq<Notification>): (ls: seq<ListenerId>)
    ensures |ls| == |notes|
    ensures forall i :: 0 <= i < |notes| ==> ls[i] == notes[i].listener
  {
    if |notes| == 0 then [] else [notes[0].listener] + Recipients(notes[1..])
  }

  /** A fetch reaches exactly the registered listeners, in registration order, and no other. */
  lemma FetchReachesExactlyTheRegistry(listeners: seq<ListenerId>, e: EndpointResult)
    ensures Recipients(FetchAndNotify(listeners, e)) == listeners
  {
  }

  /** One fetch has one outcome kind for all listeners, and which kind is decided by the
      endpoint's answer alone. */
  lemma OneOutcomeKindPerFetch(listeners: seq<ListenerId>, e: EndpointResult)
    requires |listeners| > 0
    ensures var notes := FetchAndNotify(listeners, e);
      && (forall i :: 0 <= i < |notes| ==> notes[i].outcome == notes[0].outcome)
      && ((forall i :: 0 <= i < |notes| ==> notes[i].outcome.Fetched?) <==> e.EndpointSuccess?)
      && ((forall i :: 0 <= i < |notes| ==> notes[i].outcome.FetchFailed?) <==> e.EndpointFailure?)
  {
  }

  /** The use case's fetch as a loop: ask the endpoint, then on success map the records
      once and call every listener with the list, on failure call every listener's
      failure callback. */
  method FetchLastActiveQuestionsAndNotify(listeners: seq<ListenerId>, e: EndpointResult) returns (notes: seq<Notification>)
    ensures notes == FetchAndNotify(listeners, e)
    ensures |notes| == |listeners|
  {
    var o: Outcome;
    match e {
      case EndpointSuccess(schemas) =>
        var questions := MapSchemasLoop(schemas);
        o := Fetched(questions);
      case EndpointFailure =>
        o := FetchFailed;
    }
    notes := [];
    var i := 0;
    while i < |listeners|
      invariant 0 <= i <= |listeners|
      invariant |notes| == i
      invariant forall j :: 0 <= j < i ==> notes[j] == Notification(listeners[j], o)
    {
      notes := notes + [Notification(listeners[i], o)];
      i := i + 1;
    }
    assert notes == Broadcast(listeners, o);
  }

  /** The endpoint test double: a failing double answers failure with no records; otherwise
      it answers the two fixed test records. */
  function EndpointTd(failure: bool): (e: EndpointResult)
    ensures e.EndpointFailure? <==> failure
    ensures e.EndpointSuccess? ==> |e.schemas| == 2 && e.schemas[0].id == "id1" && e.schemas[1].id == "id2"
  {
    if failure then EndpointFailure else EndpointSuccess(EndpointTestSchemas)
  }

  /** Two registered listeners and a successful fetch: each receives exactly the expected
      questions, and nobody is told of a failure. */
  lemma TwoListenersNotifiedWithCorrectData()
    ensures FetchAndNotify([1, 2], EndpointTd(false))
         == [Notification(1, Fetched(TestQuestions)), Notification(2, Fetched(TestQuestions))]
  {
    EndpointTestSchemasMapToTestQuestions();
    var notes := FetchAndNotify([1, 2], EndpointTd(false));
    assert notes[0] == Notification(1, Fetched(TestQuestions));
    assert notes[1] == Notification(2, Fetched(TestQuestions));
  }

  /** Two registered listeners and a failed fetch: each is told of the failure, and nobody
      receives a list. */
  lemma TwoListenersNotifiedOfFailure()
    ensures FetchAndNotify([1, 2], EndpointTd(true)) == [Notification(1, FetchFailed), Notification(2, FetchFailed)]
  {
  }
}
