/** The two record types of the question-fetch pipeline and the mapping between them.

    The endpoint delivers raw `QuestionSchema` records (title, id, body); the use case
    turns each into a domain `Question` (id, title), keeping the order of the records
    and dropping the body.
 */
module Questions {

  /** A raw record as the endpoint delivers it; the constructor takes title, id, body in that order. */
  datatype Schema = Schema(title: string, id: string, body: string)

  /** The domain entity. Equality is by value: same id and same title means the same question. */
  datatype Question = Question(id: string, title: string)

  /** One record mapped to one question: id and title are copied, the body is not. */
  function ToQuestion(s: Schema): Question
  {
    Question(s.id, s.title)
  }

  /** True when `qs` is, entry by entry, the projection of `schemas` onto (id, title). */
  ghost predicate Projects(schemas: seq<Schema>, qs: seq<Question>)
  {
    && |qs| == |schemas|
    && forall i :: 0 <= i < |schemas| ==> qs[i].id == schemas[i].id && qs[i].title == schemas[i].title
  }

  /** The list of questions built from the fetched records, one per record, in the same order. */
  function MapSchemas(schemas: seq<Schema>): (qs: seq<Question>)
    ensures |qs| == |schemas|
    ensures forall i :: 0 <= i < |schemas| ==> qs[i].id == schemas[i].id && qs[i].title == schemas[i].title
  {
    if |schemas| == 0 then [] else [ToQuestion(schemas[0])] + MapSchemas(schemas[1..])
  }

  /** The projection property characterises the mapping: a list is the mapping of the
      records exactly when it has their length and their ids and titles, index by index. */
  lemma MapSchemasIsProjection(schemas: seq<Schema>, qs: seq<Question>)
    ensures qs == MapSchemas(schemas) <==> Projects(schemas, qs)
  {
  }

  /** Mapping distributes over concatenation: records are neither reordered, dropped nor merged. */
  lemma MapSchemasAppend(a: seq<Schema>, b: seq<Schema>)
    ensures MapSchemas(a + b) == MapSchemas(a) + MapSchemas(b)
  {
  }

  /** The body of a record never reaches the question: two record lists that agree on ids
      and titles map to the same questions, whatever their bodies. */
  lemma MapSchemasIgnoresBody(a: seq<Schema>, b: seq<Schema>)
    requires |a| == |b|
    requires forall i :: 0 <= i < |a| ==> a[i].id == b[i].id && a[i].title == b[i].title
    ensures MapSchemas(a) == MapSchemas(b)
  {
  }

  /** The mapping loop as the use case runs it: a list sized for the records, one
      question appended per record, in iteration order. */
  method MapSchemasLoop(schemas: seq<Schema>) returns (questions: seq<Question>)
    ensures questions == MapSchemas(schemas)
    ensures |questions| == |schemas|
  {
    questions := [];
    var i := 0;
    while i < |schemas|
      invariant 0 <= i <= |schemas|
      invariant questions == MapSchemas(schemas[..i])
    {
      assert schemas[..i + 1] == schemas[..i] + [schemas[i]];
      MapSchemasAppend(schemas[..i], [schemas[i]]);
      questions := questions + [ToQuestion(schemas[i])];
      i := i + 1;
    }
    assert schemas[..i] == schemas;
  }

  /** The two records the endpoint test double returns on success. */
  const EndpointTestSchemas: seq<Schema> := [Schema("title1", "id1", "body1"), Schema("title2", "id2", "body2")]

  /** The expected question list of the tests (QUESTIONS). */
  const TestQuestions: seq<Question> := [Question("id1", "title1"), Question("id2", "title2")]

  /** The concrete mapping example: the two test records become the two expected questions, in order. */
  lemma EndpointTestSchemasMapToTestQuestions()
    ensures MapSchemas(EndpointTestSchemas) == TestQuestions
  {
  }
}
