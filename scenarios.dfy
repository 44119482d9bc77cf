/** Requests followed through the whole stack: controller, use case, entity,
    Prisma adapter and mapper, with the Prisma client's answers as inputs. */
module Scenarios {
  import opened Wrappers
  import opened Errors
  import opened Dates
  import opened PersonEntity
  import opened PersonMapper
  import opened PersonRepository
  import opened UseCases
  import opened PrismaRepository
  import opened PersonController

  /** POST / and PUT /:id with a missing or empty required field: the entity
      error has no provider code, so the reply is a logged 500 and the
      repository is never called. */
  lemma RejectedInputIsInternalError(repo: Repository, id: int, data: PersonInput)
    requires !Acceptable(data)
    ensures CreatePerson(repo, data).calls == []
    ensures PersonController.Create(CreatePerson(repo, data).result) == LoggedInternalError()
    ensures UpdatePerson(repo, id, data).calls == []
    ensures PersonController.Update(UpdatePerson(repo, id, data).result) == LoggedInternalError()
  {
    UncodedErrorsAreInternal(CreatePerson(repo, data).result.error);
    UncodedErrorsAreInternal(UpdatePerson(repo, id, data).result.error);
  }

  /** POST / with a duplicate email or CPF: the client's unique-constraint
      error passes through adapter and use case unchanged and becomes 400. */
  lemma DuplicateCreateIs400(client: Client, data: PersonInput, e: Error)
    requires Acceptable(data)
    requires e.code == Some(UniqueViolation)
    requires forall d :: client.create(d) == Failure(e)
    ensures PersonController.Create(CreatePerson(AsRepository(client), data).result)
      == Response(400, ErrorBody(AlreadyExists), false)
  {
  }

  /** The request of the end-to-end create scenario. */
  function JohnDoe(): PersonInput {
    PersonInput(Some("John Doe"), Some("john@example.com"), DateTime(1990, 1, 1, 0, 0, 0, 0),
                Some("12345678901"), Some("New York"), Some("NY"), None, None)
  }

  /** POST / with John Doe's data, against a database that stores it under
      `id`: 201, the name as sent, the date of birth as "1990-01-01" and a
      non-null id. */
  lemma CreateJohnDoe(client: Client, id: int, createdAt: Instant, updatedAt: Instant)
    requires forall d :: client.create(d) == Success(StoredRow(id, d, createdAt, updatedAt))
    ensures var r := PersonController.Create(CreatePerson(AsRepository(client), JohnDoe()).result);
      && r.status == 201 && r.body.One?
      && r.body.dto.name == "John Doe"
      && r.body.dto.dateOfBirth == "1990-01-01"
      && r.body.dto.id == Some(id)
  {
    var p := New(CreateArgs(JohnDoe())).value;
    WriteThenRehydrate(p, id, createdAt, updatedAt);
    NewYear1990(MapToDomain(StoredRow(id, WriteData(p), createdAt, updatedAt)).value);
  }

  /** GET /:id for an id the database does not hold: 404 "Person not found". */
  lemma GetMissingIs404(client: Client, id: int)
    requires client.findUnique(id) == Success(None)
    ensures PersonController.GetById(GetPersonById(AsRepository(client), id).result)
      == Response(404, ErrorBody(NotFound), false)
  {
  }

  /** Creating and then fetching by the assigned id returns every
      caller-supplied field except the address, which was never written; the
      address slot holds the row's creation time instead. */
  lemma CreateThenFind(client: Client, data: PersonInput, id: int, createdAt: Instant, updatedAt: Instant)
    requires Acceptable(data)
    requires forall d :: client.create(d) == Success(StoredRow(id, d, createdAt, updatedAt))
    requires var sent := CreatePerson(AsRepository(client), data).calls[0].person;
      client.findUnique(id) == Success(Some(StoredRow(id, WriteData(sent), createdAt, updatedAt)))
    ensures var found := GetPersonById(AsRepository(client), id).result;
      && found.Success? && found.value.Some?
      && var p := found.value.value;
      && p.id == Some(id)
      && Some(p.name) == data.name && Some(p.email) == data.email
      && p.dateOfBirth == data.dateOfBirth
      && Some(p.cpf) == data.cpf && Some(p.city) == data.city && Some(p.state) == data.state
      && p.telephone == data.telephone
      && p.address == Some(Stamp(createdAt))
  {
    var sent := CreatePerson(AsRepository(client), data).calls[0].person;
    WriteThenRehydrate(sent, id, createdAt, updatedAt);
  }
}
