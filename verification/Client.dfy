/** How the databasus client reads the answers of the API. HTTP itself, JSON and the wording of
errors are not part of this model: an answer is a status code with a body, and a body either
does not parse or has the members the client looks at.
*/
module Client {
  import opened Resources
  import opened Protocol

  datatype Body =
    | Garbled(text: string)                             // not JSON
    | Json(error: string, id: string, report: Report)   // absent members are empty

  datatype Reply =
    | NoAnswer(text: string)               // the exchange failed: connection, timeout, truncated body
    | Answer(status: int, body: Body)

  datatype ApiError = ApiError(statusCode: int, message: string)

  const RECORD_NOT_FOUND := "record not found"

  predicate Contains(text: string, part: string)
    decreases |text|
  {
    part <= text || (text != [] && Contains(text[1..], part))
  }

  function ParseError(status: int, body: Body): ApiError {
    match body
    case Garbled(text) => ApiError(status, text)
    case Json(error, _, _) => ApiError(status, error)
  }

  function ErrorText(reply: Reply): string {
    match reply
    case NoAnswer(text) => text
    case Answer(status, body) => ParseError(status, body).message
  }

  /** How the client recognises a missing record: 404, or 400 with the error text of databasus' ORM. */
  predicate IsNotFound(status: int, body: Body) {
    status == 404 || (status == 400 && body.Json? && Contains(body.error, RECORD_NOT_FOUND))
  }

  /** What the client takes for a successful delete. */
  predicate DeleteSucceeds(reply: Reply) {
    reply.Answer? && (reply.status == 200 || reply.status == 204 || IsNotFound(reply.status, reply.body))
  }

  // ----------------------------------------------------- what databasus answers

  /** How databasus says that a record is missing, by itself and whatever the client makes of it: with 404 and
      any body, or with 400 and an error that quotes its ORM. */
  ghost predicate SaysMissing(status: int, body: Body) {
    status == 404 || (status == 400 && body.Json? && exists p, q :: body.error == p + RECORD_NOT_FOUND + q)
  }

  lemma {:induction false} FindsAnywhere(before: string, part: string, after: string)
    ensures Contains(before + part + after, part)
    decreases |before|
  {
    var text := before + part + after;
    if before == [] {
      assert text[..|part|] == part;
    } else {
      FindsAnywhere(before[1..], part, after);
      assert text[1..] == before[1..] + part + after;
    }
  }

  lemma {:induction false} FindsOnlyThere(text: string, part: string) returns (before: string, after: string)
    requires Contains(text, part)
    ensures text == before + part + after
    decreases |text|
  {
    if part <= text {
      before, after := [], text[|part|..];
    } else {
      before, after := FindsOnlyThere(text[1..], part);
      before := [text[0]] + before;
    }
  }

  /** The client takes exactly those answers for "missing" with which databasus says so. */
  lemma NotFoundIff(status: int, body: Body)
    ensures IsNotFound(status, body) <==> SaysMissing(status, body)
  {
    hide Contains;
    if body.Json? {
      if Contains(body.error, RECORD_NOT_FOUND) { var p, q := FindsOnlyThere(body.error, RECORD_NOT_FOUND); }
      if p, q :| body.error == p + RECORD_NOT_FOUND + q { FindsAnywhere(p, RECORD_NOT_FOUND, q); }
    }
  }

  /** A delete succeeds on 200, on 204 and on the answers for a missing record, and on nothing else; in
      particular a 400 without the phrase, or with a body that does not parse, is an error. */
  lemma DeleteSucceedsIff(reply: Reply)
    ensures DeleteSucceeds(reply) <==>
              reply.Answer? && (reply.status in {200, 204} || SaysMissing(reply.status, reply.body))
  {
    hide IsNotFound, SaysMissing;
    if reply.Answer? { NotFoundIff(reply.status, reply.body); }
  }

  // ------------------------------------------------------- saves and gets

  /** One exchange with databasus about saving something: whether it was saved, and what comes back. */
  datatype Saving = Saving(saved: bool, reply: Reply)

  /** What databasus answers: with one of these codes and JSON that names the ID, if it saved, and otherwise with an
      error, or something else answers in its place, with a page that is not JSON. The answer may get lost on
      its way back. */
  predicate TruthfulSave(codes: set<int>, x: Saving) {
    x.reply.Answer? ==>
      if x.saved then x.reply.status in codes && x.reply.body.Json? else x.reply.status >= 400 || x.reply.body.Garbled?
  }

  /** How the protocol counts the exchange. */
  function OutcomeOfSave(x: Saving): Outcome {
    if !x.saved then Failed else if x.reply.Answer? then Done else Lost
  }

  /** One exchange about reading a database: whether the request reaches databasus, and what comes back. */
  datatype Reading = Reading(reached: bool, reply: Reply)

  /** What databasus answers: the database if it is there, and that it is missing if it is not; a request that is
      turned away before gets an answer that says neither. */
  ghost predicate TruthfulGet(present: bool, report: Report, x: Reading) {
    x.reply.Answer? ==>
      if !x.reached then
        (x.reply.status != 200 || x.reply.body.Garbled?) && !SaysMissing(x.reply.status, x.reply.body)
      else if present then x.reply.status == 200 && x.reply.body.Json? && x.reply.body.report == report
      else SaysMissing(x.reply.status, x.reply.body)
  }

  // ------------------------------------------------- deletes cannot get stuck

  /** One exchange with databasus about deleting a record: whether the request reaches the record, and what
      comes back. The request or the response may get lost. */
  datatype Deletion = Deletion(reached: bool, reply: Reply)

  /** What databasus does and answers: a record that is there is deleted, and a missing one reported; a request
      that is turned away before, say with 401 or 503, gets an answer that says neither. */
  ghost predicate Truthful(present: bool, d: Deletion) {
    d.reply.Answer? ==>
      if !d.reached then d.reply.status !in {200, 204} && !SaysMissing(d.reply.status, d.reply.body)
      else if present then d.reply.status in {200, 204}
      else SaysMissing(d.reply.status, d.reply.body)
  }

  /** How the protocol counts the exchange. */
  function OutcomeOf(d: Deletion): Outcome {
    if DeleteSucceeds(d.reply) then Done else if d.reached then Lost else Failed
  }

  /** An attempt succeeds if and only if it reached databasus and was answered, whether the record was still
      there or not. So an attempt fails only because it did not get there or its answer did not get back. */
  lemma AnsweredSucceeds(present: bool, d: Deletion)
    requires Truthful(present, d)
    ensures DeleteSucceeds(d.reply) <==> d.reached && d.reply.Answer?
  {
    hide SaysMissing, DeleteSucceeds;
    DeleteSucceedsIff(d.reply);
  }

  function ExistsAfter(present: bool, deletions: seq<Deletion>): bool {
    if deletions == [] then present
    else !deletions[|deletions| - 1].reached && ExistsAfter(present, deletions[..|deletions| - 1])
  }

  ghost predicate AllTruthful(present: bool, deletions: seq<Deletion>) {
    forall i :: 0 <= i < |deletions| ==> Truthful(ExistsAfter(present, deletions[..i]), deletions[i])
  }

  /** However attempts were lost before, and in whatever mixture of the two ways databasus says that the record
      is missing: an attempt that reaches databasus and is answered succeeds, and a success means that the
      record is gone, for all later attempts too. */
  lemma DeletesCannotWedge(present: bool, deletions: seq<Deletion>, i: nat, j: nat)
    requires AllTruthful(present, deletions) && i < j <= |deletions|
    ensures DeleteSucceeds(deletions[i].reply) <==> deletions[i].reached && deletions[i].reply.Answer?
    ensures DeleteSucceeds(deletions[i].reply) ==> !ExistsAfter(present, deletions[..j])
  {
    hide Truthful, DeleteSucceeds;
    assert Truthful(ExistsAfter(present, deletions[..i]), deletions[i]);
    AnsweredSucceeds(ExistsAfter(present, deletions[..i]), deletions[i]);
    if deletions[i].reached {
      assert deletions[..i + 1][..i] == deletions[..i];
      GoneStaysGone(present, deletions, i + 1, j);
    }
  }

  /** Once gone, the record stays gone. */
  lemma {:induction false} GoneStaysGone(present: bool, deletions: seq<Deletion>, i: nat, j: nat)
    requires i <= j <= |deletions| && !ExistsAfter(present, deletions[..i])
    ensures !ExistsAfter(present, deletions[..j])
  {
    if i < j {
      GoneStaysGone(present, deletions, i, j - 1);
      assert deletions[..j][..j - 1] == deletions[..j - 1];
    }
  }
}
