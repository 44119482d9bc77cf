/** The HTTP controller (src/presentation/controllers/PersonController.ts).
    Each handler takes the outcome of its use case and issues exactly one
    reply: a status code, a body, and whether the error was logged first. */
module PersonController {
  import opened Wrappers
  import opened Errors
  import opened PersonEntity
  import opened PersonMapper

  datatype Body =
    | One(dto: PersonDTO)
    | Many(dtos: seq<PersonDTO>)
    | ErrorBody(error: string)
    | NoBody

  datatype Response = Response(status: int, body: Body, logged: bool)

  const InternalError: string := "Internal server error"
  const NotFound: string := "Person not found"
  const AlreadyExists: string := "Email or CPF already exists"

  function Reply(status: int, message: string): Response {
    Response(status, ErrorBody(message), false)
  }

  /** `console.error(...)` followed by the 500 reply. */
  function LoggedInternalError(): Response {
    Response(500, ErrorBody(InternalError), true)
  }

  /** The error taxonomy every handler keeps: exactly the 500 replies are
      logged, and each error status has its one fixed message. */
  predicate Classified(r: Response) {
    && (r.logged <==> r.status == 500)
    && (r.status == 500 ==> r.body == ErrorBody(InternalError))
    && (r.status == 404 ==> r.body == ErrorBody(NotFound))
    && (r.status == 400 ==> r.body == ErrorBody(AlreadyExists))
  }

  predicate HasCode(e: Error, code: string) {
    e.code == Some(code)
  }

  /** `people.map(PersonMapper.toDTO)`. */
  function ToDTOs(people: seq<Person>): (r: seq<PersonDTO>)
    ensures |r| == |people| && forall i :: 0 <= i < |people| ==> r[i] == ToDTO(people[i])
  {
    seq(|people|, i requires 0 <= i < |people| => ToDTO(people[i]))
  }

  /** POST /: 201 with the mapped person; a duplicate is 400; anything else,
      entity check failures included, is logged and 500. */
  function Create(outcome: Result<Person, Error>): (r: Response)
    ensures Classified(r)
    ensures outcome.Success? <==> r.status == 201
    ensures outcome.Success? ==> r.body == One(ToDTO(outcome.value))
    ensures outcome.Failure? ==> (r.status == 400 <==> HasCode(outcome.error, UniqueViolation))
    ensures outcome.Failure? ==> r.status == 400 || r.status == 500
  {
    match outcome
    case Success(person) => Response(201, One(ToDTO(person)), false)
    case Failure(error) =>
      if HasCode(error, UniqueViolation) then Reply(400, AlreadyExists)
      else LoggedInternalError()
  }

  /** GET /: the default 200 with every person mapped, in order; any error is
      logged and 500, whatever its code. */
  function GetAll(outcome: Result<seq<Person>, Error>): (r: Response)
    ensures Classified(r)
    ensures outcome.Success? <==> r.status == 200
    ensures outcome.Success? ==> r.body.Many? && r.body.dtos == ToDTOs(outcome.value)
    ensures outcome.Failure? ==> r == LoggedInternalError()
  {
    match outcome
    case Success(people) => Response(200, Many(ToDTOs(people)), false)
    case Failure(_) => LoggedInternalError()
  }

  /** GET /:id: absence is 404, a person the default 200, and any error is
      logged and 500, whatever its code. */
  function GetById(outcome: Result<Option<Person>, Error>): (r: Response)
    ensures Classified(r)
    ensures r.status == 404 <==> outcome == Success(None)
    ensures r.status == 200 <==> outcome.Success? && outcome.value.Some?
    ensures r.status == 200 ==> r.body == One(ToDTO(outcome.value.value))
    ensures outcome.Failure? ==> r == LoggedInternalError()
  {
    match outcome
    case Success(None) => Reply(404, NotFound)
    case Success(Some(person)) => Response(200, One(ToDTO(person)), false)
    case Failure(_) => LoggedInternalError()
  }

  /** PUT /:id: the default 200 with the mapped person; a missing record is
      404 (tested first), a duplicate 400; anything else, entity check
      failures included, is logged and 500. */
  function Update(outcome: Result<Person, Error>): (r: Response)
    ensures Classified(r)
    ensures outcome.Success? <==> r.status == 200
    ensures outcome.Success? ==> r.body == One(ToDTO(outcome.value))
    ensures outcome.Failure? ==> (r.status == 404 <==> HasCode(outcome.error, RecordNotFound))
    ensures outcome.Failure? ==> (r.status == 400 <==> HasCode(outcome.error, UniqueViolation))
    ensures outcome.Failure? ==> r.status in {400, 404, 500}
  {
    match outcome
    case Success(person) => Response(200, One(ToDTO(person)), false)
    case Failure(error) =>
      if HasCode(error, RecordNotFound) then Reply(404, NotFound)
      else if HasCode(error, UniqueViolation) then Reply(400, AlreadyExists)
      else LoggedInternalError()
  }

  /** DELETE /:id: 204 with an empty body; a missing record is 404; anything
      else is logged and 500. */
  function Delete(outcome: Result<(), Error>): (r: Response)
    ensures Classified(r)
    ensures outcome.Success? <==> r == Response(204, NoBody, false)
    ensures outcome.Failure? ==> (r.status == 404 <==> HasCode(outcome.error, RecordNotFound))
    ensures outcome.Failure? ==> r.status == 404 || r.status == 500
  {
    match outcome
    case Success(_) => Response(204, NoBody, false)
    case Failure(error) =>
      if HasCode(error, RecordNotFound) then Reply(404, NotFound)
      else LoggedInternalError()
  }

  /** An error without a provider code, such as an entity check failure, is
      a logged 500 from every handler. */
  lemma UncodedErrorsAreInternal(e: Error)
    requires e.code == None
    ensures Create(Failure(e)) == LoggedInternalError()
    ensures GetAll(Failure(e)) == LoggedInternalError()
    ensures GetById(Failure(e)) == LoggedInternalError()
    ensures Update(Failure(e)) == LoggedInternalError()
    ensures Delete(Failure(e)) == LoggedInternalError()
  {
  }
}
