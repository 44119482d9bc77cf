/** The five use cases (src/application/use-cases/). Create and Update build a
    Person from the request data by positional constructor arguments and hand
    it to the repository; the other three delegate directly. None of them
    catches an error. */
module UseCases {
  import opened Wrappers
  import opened Errors
  import opened Dates
  import opened PersonEntity
  import opened PersonRepository

  /** CreatePersonDTO / UpdatePersonDTO (src/application/dtos/PersonDTO.ts).
      The date of birth arrives as a Date; `new Date(d)` copies it. */
  datatype PersonInput = PersonInput(
    name: Option<string>,
    email: Option<string>,
    dateOfBirth: Instant,
    cpf: Option<string>,
    city: Option<string>,
    state: Option<string>,
    address: Option<string>,
    telephone: Option<string>)

  /** The request data that passes the entity's checks. */
  predicate Acceptable(data: PersonInput) {
    Truthy(data.name) && Truthy(data.email) && Truthy(data.cpf) && Truthy(data.city) && Truthy(data.state)
  }

  /** An entity check failure, rethrown as a plain Error (it has no code). */
  function EntityError(message: string): Error {
    Error(message, None)
  }

  function TextOf(s: Option<string>): Option<Scalar> {
    match s
    case None => None
    case Some(t) => Some(Text(t))
  }

  // ---------------------------------------------------------------------------
  // CreatePersonUseCase.execute

  /** `new Person(null, name, email, new Date(dateOfBirth), cpf, city, state, telephone)`:
      eight arguments, so `address` and both timestamps are left off. */
  function CreateArgs(data: PersonInput): Args {
    Args(None, data.name, data.email, Some(data.dateOfBirth), data.cpf, data.city, data.state,
         data.telephone, None, None, None)
  }

  function CreatePerson(repo: Repository, data: PersonInput): (r: Run<Person>)
    ensures |r.calls| <= 1
    ensures r.calls == [] <==> !Acceptable(data)
    ensures r.calls == [] ==>
      && New(CreateArgs(data)).Failure?
      && r.result == Failure(EntityError(New(CreateArgs(data)).error))
      && r.result.error.message in RequiredMessages - {DateOfBirthRequired}
    ensures r.calls != [] ==>
      && r.calls[0].CreateCall?
      && var p := r.calls[0].person;
      && Valid(p) && p.id == None
      && Some(p.name) == data.name && Some(p.email) == data.email
      && p.dateOfBirth == data.dateOfBirth
      && Some(p.cpf) == data.cpf && Some(p.city) == data.city && Some(p.state) == data.state
      && p.telephone == data.telephone
      && p.address == None && p.createdAt == None && p.updatedAt == None
      && r.result == repo.create(p)
  {
    match New(CreateArgs(data))
    case Failure(message) => Run([], Failure(EntityError(message)))
    case Success(person) => Run([CreateCall(person)], repo.create(person))
  }

  // ---------------------------------------------------------------------------
  // UpdatePersonUseCase.execute

  /** `new Person(id, name, email, new Date(dateOfBirth), cpf, city, state, address, telephone)`:
      the eighth constructor parameter is `telephone` and the ninth `address`,
      so the request's address lands in the telephone slot and its telephone in
      the address slot. */
  function UpdateArgs(id: int, data: PersonInput): Args {
    Args(Some(id), data.name, data.email, Some(data.dateOfBirth), data.cpf, data.city, data.state,
         data.address, TextOf(data.telephone), None, None)
  }

  function UpdatePerson(repo: Repository, id: int, data: PersonInput): (r: Run<Person>)
    ensures |r.calls| <= 1
    ensures r.calls == [] <==> !Acceptable(data)
    ensures r.calls == [] ==>
      && New(UpdateArgs(id, data)).Failure?
      && r.result == Failure(EntityError(New(UpdateArgs(id, data)).error))
      && r.result.error.message in RequiredMessages - {DateOfBirthRequired}
    ensures r.calls != [] ==>
      && r.calls[0].UpdateCall? && r.calls[0].id == id
      && var p := r.calls[0].person;
      && Valid(p) && p.id == Some(id)
      && Some(p.name) == data.name && Some(p.email) == data.email
      && p.dateOfBirth == data.dateOfBirth
      && Some(p.cpf) == data.cpf && Some(p.city) == data.city && Some(p.state) == data.state
      && p.telephone == data.address
      && p.address == TextOf(data.telephone)
      && p.createdAt == None && p.updatedAt == None
      && r.result == repo.update(id, p)
  {
    match New(UpdateArgs(id, data))
    case Failure(message) => Run([], Failure(EntityError(message)))
    case Success(person) => Run([UpdateCall(id, person)], repo.update(id, person))
  }

  // ---------------------------------------------------------------------------
  // GetPersonByIdUseCase, GetAllPersonsUseCase, DeletePersonUseCase

  function GetPersonById(repo: Repository, id: int): (r: Run<Option<Person>>)
    ensures r.calls == [FindByIdCall(id)]
    ensures r.result == repo.findById(id)
  {
    Run([FindByIdCall(id)], repo.findById(id))
  }

  function GetAllPersons(repo: Repository): (r: Run<seq<Person>>)
    ensures r.calls == [FindAllCall]
    ensures r.result == repo.findAll()
  {
    Run([FindAllCall], repo.findAll())
  }

  function DeletePerson(repo: Repository, id: int): (r: Run<()>)
    ensures r.calls == [DeleteCall(id)]
    ensures r.result == repo.delete(id)
  {
    Run([DeleteCall(id)], repo.delete(id))
  }

  // ---------------------------------------------------------------------------
  // Properties relating the use cases to the entity

  /** Create reaches the repository with exactly the Person the entity builds
      from the request, so everything the entity promises holds of it. */
  lemma CreateHandsOverTheEntity(repo: Repository, data: PersonInput)
    requires Acceptable(data)
    ensures New(CreateArgs(data)).Success?
    ensures CreatePerson(repo, data).calls == [CreateCall(New(CreateArgs(data)).value)]
  {
  }

  /** An update with an empty name is refused with "Name is required" before
      the repository is called, whatever the other fields hold. */
  lemma UpdateEmptyName(repo: Repository, id: int, data: PersonInput)
    requires data.name == Some("")
    ensures UpdatePerson(repo, id, data) == Run([], Failure(Error(NameRequired, None)))
  {
  }

  /** Update and Create build the same Person from the same request, apart from
      the id and the two contact fields, which Update exchanges. */
  lemma UpdateSwapsContactFields(repo: Repository, id: int, data: PersonInput)
    requires Acceptable(data)
    ensures var c := CreatePerson(repo, data).calls[0].person;
      var u := UpdatePerson(repo, id, data).calls[0].person;
      u == c.(id := Some(id), telephone := data.address, address := TextOf(data.telephone))
  {
  }
}
