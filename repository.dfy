/** The repository interface the use cases depend on
    (src/domain/repositories/IPersonRepository.ts), as a record of its five
    operations. Each operation is a total function from its arguments to the
    value it resolves with or the error it rejects with; an implementation is
    any such record (see PrismaRepository.AsRepository). */
module PersonRepository {
  import opened Wrappers
  import opened Errors
  import opened PersonEntity

  datatype Repository = Repository(
    create: Person -> Result<Person, Error>,
    findAll: () -> Result<seq<Person>, Error>,
    findById: int -> Result<Option<Person>, Error>,
    update: (int, Person) -> Result<Person, Error>,
    delete: int -> Result<(), Error>)

  /** One call a use case makes on the repository, with its arguments. */
  datatype Call =
    | CreateCall(person: Person)
    | FindAllCall
    | FindByIdCall(id: int)
    | UpdateCall(id: int, person: Person)
    | DeleteCall(id: int)

  /** What running a use case does: the repository calls it makes, in order,
      and the value it resolves with or the error it rejects with. */
  datatype Run<T> = Run(calls: seq<Call>, result: Result<T, Error>)
}
