/** The Person entity (src/domain/entities/Person.ts): a record of eleven
    readonly fields whose constructor refuses to build it unless the six
    required fields are truthy, checked in a fixed order. */
module PersonEntity {
  import opened Wrappers
  import opened Dates

  /** The value in the `address` slot. The entity declares it a string, but
      the persistence adapter fills it with a Date (see
      PrismaRepository.RowArgs), so the model lets it hold either. */
  datatype Scalar = Text(text: string) | Stamp(at: Instant)

  /** The constructor's eleven positional arguments. An argument the caller
      leaves off, or passes as `undefined` or `null`, is `None`. */
  datatype Args = Args(
    id: Option<int>,
    name: Option<string>,
    email: Option<string>,
    dateOfBirth: Option<Instant>,
    cpf: Option<string>,
    city: Option<string>,
    state: Option<string>,
    telephone: Option<string>,
    address: Option<Scalar>,
    createdAt: Option<Instant>,
    updatedAt: Option<Instant>)

  /** A constructed Person. Its required fields hold the strings that passed
      the checks; `id` is `None` until the database assigns one. */
  datatype Person = Person(
    id: Option<int>,
    name: string,
    email: string,
    dateOfBirth: Instant,
    cpf: string,
    city: string,
    state: string,
    telephone: Option<string>,
    address: Option<Scalar>,
    createdAt: Option<Instant>,
    updatedAt: Option<Instant>)

  const NameRequired: string := "Name is required"
  const EmailRequired: string := "Email is required"
  const DateOfBirthRequired: string := "Date of birth is required"
  const CpfRequired: string := "CPF is required"
  const CityRequired: string := "City is required"
  const StateRequired: string := "State is required"

  const RequiredMessages: set<string> :=
    {NameRequired, EmailRequired, DateOfBirthRequired, CpfRequired, CityRequired, StateRequired}

  /** JavaScript truthiness of a string argument: present and not "". */
  predicate Truthy(s: Option<string>) {
    s.Some? && s.value != ""
  }

  /** The six required arguments all pass their check. A Date object is always
      truthy, so `dateOfBirth` only has to be present. */
  predicate RequiredPresent(a: Args) {
    && Truthy(a.name) && Truthy(a.email) && a.dateOfBirth.Some?
    && Truthy(a.cpf) && Truthy(a.city) && Truthy(a.state)
  }

  /** The invariant every constructed Person has. */
  predicate Valid(p: Person) {
    p.name != "" && p.email != "" && p.cpf != "" && p.city != "" && p.state != ""
  }

  /** The arguments that rebuild `p`. */
  function ArgsOf(p: Person): Args {
    Args(p.id, Some(p.name), Some(p.email), Some(p.dateOfBirth), Some(p.cpf),
         Some(p.city), Some(p.state), p.telephone, p.address, p.createdAt, p.updatedAt)
  }

  /** The required checks in their order: the message of the first failing one. */
  function FirstMissing(a: Args): Option<string> {
    if !Truthy(a.name) then Some(NameRequired)
    else if !Truthy(a.email) then Some(EmailRequired)
    else if a.dateOfBirth.None? then Some(DateOfBirthRequired)
    else if !Truthy(a.cpf) then Some(CpfRequired)
    else if !Truthy(a.city) then Some(CityRequired)
    else if !Truthy(a.state) then Some(StateRequired)
    else None
  }

  /** `new Person(...)`: the Person with exactly the given fields, or the
      message of the first required field that fails its check. */
  function New(a: Args): (r: Result<Person, string>)
    ensures r.Success? <==> RequiredPresent(a)
    ensures r.Success? ==> Valid(r.value) && ArgsOf(r.value) == a
    ensures r.Failure? ==> r.error in RequiredMessages
    ensures r == Failure(NameRequired) <==> !Truthy(a.name)
    ensures r == Failure(EmailRequired) <==> Truthy(a.name) && !Truthy(a.email)
    ensures r == Failure(DateOfBirthRequired) <==>
      Truthy(a.name) && Truthy(a.email) && a.dateOfBirth.None?
    ensures r == Failure(CpfRequired) <==>
      Truthy(a.name) && Truthy(a.email) && a.dateOfBirth.Some? && !Truthy(a.cpf)
    ensures r == Failure(CityRequired) <==>
      Truthy(a.name) && Truthy(a.email) && a.dateOfBirth.Some? && Truthy(a.cpf) && !Truthy(a.city)
    ensures r == Failure(StateRequired) <==>
      Truthy(a.name) && Truthy(a.email) && a.dateOfBirth.Some? && Truthy(a.cpf) && Truthy(a.city)
      && !Truthy(a.state)
  {
    match FirstMissing(a)
    case Some(message) => Failure(message)
    case None =>
      Success(Person(a.id, a.name.value, a.email.value, a.dateOfBirth.value, a.cpf.value,
                     a.city.value, a.state.value, a.telephone, a.address, a.createdAt, a.updatedAt))
  }

  /** Construction is the inverse of reading the fields back: a Person is valid
      exactly when its own fields rebuild it. */
  lemma NewArgsOf(p: Person)
    ensures Valid(p) <==> New(ArgsOf(p)) == Success(p)
  {
  }

  /** Arguments that agree on the six required fields give the same verdict and
      the same message: `id`, `telephone`, `address`, `createdAt` and
      `updatedAt` never decide whether construction succeeds. */
  lemma OptionalFieldsIrrelevant(a: Args, b: Args)
    requires a.name == b.name && a.email == b.email && a.dateOfBirth == b.dateOfBirth
    requires a.cpf == b.cpf && a.city == b.city && a.state == b.state
    ensures New(a).Success? <==> New(b).Success?
    ensures New(a).Failure? ==> New(a) == New(b)
  {
  }

  /** The message names the first failing field even when later ones fail too. */
  lemma EarliestFailureWins(a: Args)
    requires !Truthy(a.name) && !Truthy(a.state)
    ensures New(a) == Failure(NameRequired)
  {
  }
}
