/** The Prisma adapter (src/infrastructure/repositories/PrismaPersonRepository.ts).
    The Prisma client is foreign code: it is a record of its five calls, and
    whatever a call resolves with or rejects with is an input. The adapter
    decides what is written and how a returned row becomes a Person again. */
module PrismaRepository {
  import opened Wrappers
  import opened Errors
  import opened Dates
  import opened PersonEntity
  import PersonRepository

  /** A row of the `person` table as the client returns it. */
  datatype Row = Row(
    id: int,
    name: string,
    email: string,
    dateOfBirth: Instant,
    cpf: string,
    city: string,
    state: string,
    telephone: Option<string>,
    createdAt: Instant,
    updatedAt: Instant)

  /** The `data` object passed to `prisma.person.create` and `prisma.person.update`:
      seven fields, neither `id` nor `address`. */
  datatype PersonData = PersonData(
    name: string,
    email: string,
    dateOfBirth: Instant,
    cpf: string,
    city: string,
    state: string,
    telephone: Option<string>)

  /** `prisma.person`: create, findMany, findUnique({where: {id}}),
      update({where: {id}, data}) and delete({where: {id}}). */
  datatype Client = Client(
    create: PersonData -> Result<Row, Error>,
    findMany: () -> Result<seq<Row>, Error>,
    findUnique: int -> Result<Option<Row>, Error>,
    update: (int, PersonData) -> Result<Row, Error>,
    delete: int -> Result<Row, Error>)

  /** The fields written on create and on update. */
  function WriteData(p: Person): (d: PersonData)
    ensures d.name == p.name && d.email == p.email && d.dateOfBirth == p.dateOfBirth
    ensures d.cpf == p.cpf && d.city == p.city && d.state == p.state && d.telephone == p.telephone
  {
    PersonData(p.name, p.email, p.dateOfBirth, p.cpf, p.city, p.state, p.telephone)
  }

  /** The arguments `mapToDomain` passes to the Person constructor: ten of them,
      so after `telephone` the row's `createdAt` goes to the address slot, its
      `updatedAt` to the createdAt slot, and the updatedAt slot is left off. */
  function RowArgs(row: Row): Args {
    Args(Some(row.id), Some(row.name), Some(row.email), Some(row.dateOfBirth), Some(row.cpf),
         Some(row.city), Some(row.state), row.telephone, Some(Stamp(row.createdAt)),
         Some(row.updatedAt), None)
  }

  /** `mapToDomain`: rehydration re-runs the entity's checks. */
  function MapToDomain(row: Row): (r: Result<Person, Error>)
    ensures r.Success? <==>
      row.name != "" && row.email != "" && row.cpf != "" && row.city != "" && row.state != ""
    ensures r.Failure? ==>
      r.error.code == None && New(RowArgs(row)).Failure? && r.error.message == New(RowArgs(row)).error
    ensures r.Success? ==> r.value == Person(
      Some(row.id), row.name, row.email, row.dateOfBirth, row.cpf, row.city, row.state,
      row.telephone, Some(Stamp(row.createdAt)), Some(row.updatedAt), None)
  {
    match New(RowArgs(row))
    case Failure(message) => Failure(Error(message, None))
    case Success(p) => Success(p)
  }

  /** `rows.map(mapToDomain)`: every row rehydrated in order, or the error of
      the first row that fails (`map` stops at the first throw). */
  function MapAll(rows: seq<Row>): (r: Result<seq<Person>, Error>)
    ensures r.Success? <==> forall i :: 0 <= i < |rows| ==> MapToDomain(rows[i]).Success?
    ensures r.Success? ==>
      && |r.value| == |rows|
      && forall i :: 0 <= i < |rows| ==> MapToDomain(rows[i]) == Success(r.value[i])
  {
    if rows == [] then Success([])
    else
      match MapToDomain(rows[0])
      case Failure(e) => Failure(e)
      case Success(p) =>
        match MapAll(rows[1..])
        case Failure(e) =>
          Failure(e)
        case Success(ps) =>
          assert forall i :: 1 <= i < |rows| ==> rows[i] == rows[1..][i - 1];
          Success([p] + ps)
  }

  /** When rows `0 .. k-1` rehydrate and row `k` does not, `findAll` rejects
      with row `k`'s error: later rows are never looked at. */
  lemma {:induction false} MapAllFirstFailure(rows: seq<Row>, k: nat)
    requires k < |rows| && MapToDomain(rows[k]).Failure?
    requires forall j :: 0 <= j < k ==> MapToDomain(rows[j]).Success?
    ensures MapAll(rows) == Failure(MapToDomain(rows[k]).error)
  {
    if k > 0 {
      assert rows[1..][k - 1] == rows[k];
      forall j | 0 <= j < k - 1 ensures MapToDomain(rows[1..][j]).Success? {
        assert rows[1..][j] == rows[j + 1];
      }
      MapAllFirstFailure(rows[1..], k - 1);
    }
  }

  // ---------------------------------------------------------------------------
  // The five repository operations

  function Create(client: Client, p: Person): (r: Result<Person, Error>)
    ensures client.create(WriteData(p)).Failure? ==> r == Failure(client.create(WriteData(p)).error)
    ensures client.create(WriteData(p)).Success? ==> r == MapToDomain(client.create(WriteData(p)).value)
  {
    match client.create(WriteData(p))
    case Failure(e) => Failure(e)
    case Success(row) => MapToDomain(row)
  }

  function FindAll(client: Client): (r: Result<seq<Person>, Error>)
    ensures client.findMany().Failure? ==> r == Failure(client.findMany().error)
    ensures client.findMany().Success? ==> r == MapAll(client.findMany().value)
  {
    match client.findMany()
    case Failure(e) => Failure(e)
    case Success(rows) => MapAll(rows)
  }

  /** `person ? this.mapToDomain(person) : null`. */
  function FindById(client: Client, id: int): (r: Result<Option<Person>, Error>)
    ensures r == Success(None) <==> client.findUnique(id) == Success(None)
    ensures client.findUnique(id).Failure? ==> r == Failure(client.findUnique(id).error)
    ensures client.findUnique(id).Success? && client.findUnique(id).value.Some? ==>
      var row := client.findUnique(id).value.value;
      match MapToDomain(row)
      case Success(p) => r == Success(Some(p))
      case Failure(e) => r == Failure(e)
  {
    match client.findUnique(id)
    case Failure(e) => Failure(e)
    case Success(None) => Success(None)
    case Success(Some(row)) =>
      match MapToDomain(row)
      case Failure(e) => Failure(e)
      case Success(p) => Success(Some(p))
  }

  /** The row is addressed by the `id` argument; the Person's own `id` is not written. */
  function Update(client: Client, id: int, p: Person): (r: Result<Person, Error>)
    ensures client.update(id, WriteData(p)).Failure? ==> r == Failure(client.update(id, WriteData(p)).error)
    ensures client.update(id, WriteData(p)).Success? ==> r == MapToDomain(client.update(id, WriteData(p)).value)
  {
    match client.update(id, WriteData(p))
    case Failure(e) => Failure(e)
    case Success(row) => MapToDomain(row)
  }

  /** The deleted row the client returns is thrown away. */
  function Delete(client: Client, id: int): (r: Result<(), Error>)
    ensures r.Success? <==> client.delete(id).Success?
    ensures r.Failure? ==> r.error == client.delete(id).error
  {
    match client.delete(id)
    case Failure(e) => Failure(e)
    case Success(_) => Success(())
  }

  /** The adapter as an implementation of the repository interface. */
  function AsRepository(client: Client): PersonRepository.Repository {
    PersonRepository.Repository(
      p => Create(client, p),
      () => FindAll(client),
      id => FindById(client, id),
      (id, p) => Update(client, id, p),
      id => Delete(client, id))
  }

  // ---------------------------------------------------------------------------
  // Properties

  /** The row the database stores for written data, with the id and timestamps
      it assigns. */
  function StoredRow(id: int, d: PersonData, createdAt: Instant, updatedAt: Instant): Row {
    Row(id, d.name, d.email, d.dateOfBirth, d.cpf, d.city, d.state, d.telephone, createdAt, updatedAt)
  }

  /** Writing a valid Person and reading its row back returns the same
      caller-supplied fields with the assigned id; the address is not
      stored, and the timestamps arrive one slot late. */
  lemma WriteThenRehydrate(p: Person, id: int, createdAt: Instant, updatedAt: Instant)
    requires Valid(p)
    ensures MapToDomain(StoredRow(id, WriteData(p), createdAt, updatedAt))
      == Success(p.(id := Some(id), address := Some(Stamp(createdAt)),
                    createdAt := Some(updatedAt), updatedAt := None))
  {
  }

  /** A rehydrated Person never carries `updatedAt`, and its `createdAt` is the
      row's `updatedAt`. */
  lemma RehydratedTimestamps(row: Row)
    requires MapToDomain(row).Success?
    ensures MapToDomain(row).value.updatedAt == None
    ensures MapToDomain(row).value.createdAt == Some(row.updatedAt)
    ensures MapToDomain(row).value.address == Some(Stamp(row.createdAt))
  {
  }
}
