# people_manager_fastify: the Person CRUD core in Dafny

This project models the core of a small layered CRUD service for one resource, a Person. The service can create, list, fetch by id, update and delete a Person. The model covers five layers:

- **Entity** (`PersonEntity`, person.dfy). A Person has eleven readonly fields. Its constructor refuses to build it unless `name`, `email`, `dateOfBirth`, `cpf`, `city` and `state` are truthy. The checks run in that order, and the first failure names its field. The constructor becomes `New(Args)`, which returns `Result<Person, string>`. `Args` holds the eleven positional arguments. An argument that is left off, `undefined` or `null` is `None`. A falsy string is `None` or `Some("")`.
- **Use cases** (`UseCases`, use_cases.dfy). The repository interface is `PersonRepository.Repository`, a record of five functions. Each use case returns a `Run`: the repository calls it made, and its result. That way "called exactly once with the same id" and "not called" can be stated.
- **Prisma adapter** (`PrismaRepository`, prisma_repository.dfy). The Prisma client is a record of five functions, and its answers are inputs. The adapter decides what is written and how a returned row is rehydrated. `AsRepository` plugs the adapter into the interface.
- **Mapper** (`PersonMapper`, mapper.dfy). It projects a Person to its wire form. A Date is a record of its UTC fields (`Dates.Instant`, year 0 to 9999). `Dates` writes `toISOString` and `split('T')[0]` out in full, with a zero-padding formatter.
- **Controller** (`PersonController`, controller.dfy). Each handler maps a use-case outcome to one `Response(status, body, logged)`.

`Scenarios` (scenarios.dfy) follows requests through every layer at once.

Where the code and its tests or its documentation disagree, the model follows the code:

- `UpdatePersonUseCase` passes the request's `address` as the eighth constructor argument (`telephone`) and its `telephone` as the ninth (`address`). So the two are exchanged: see `UseCases.UpdateSwapsContactFields`. The test at UpdatePersonUseCase.spec.ts:75 expects the telephone to stay in place.
- `mapToDomain` passes ten arguments and leaves out `address`. So the row's `createdAt` lands in the address slot and its `updatedAt` in the createdAt slot, and `updatedAt` is never set. The address slot therefore holds a `Scalar`: either text or a timestamp.
- An entity check failure is a plain `Error` with no provider code. Both `create` and `update` answer it with a logged 500, not a 400.

## Model

| member | source | states |
|---|---|---|
| PersonEntity.New | src/domain/entities/Person.ts:1-25 | construction succeeds iff the six required fields are truthy; on success every field equals its argument (null id and the optional fields included) and the Person is Valid; on failure the message is the first failing field's, and each of the six messages arises exactly under its own condition in the order name, email, dateOfBirth, cpf, city, state |
| PersonEntity.NewArgsOf | src/domain/entities/Person.ts:3-16 | a Person is valid exactly when its own fields rebuild it through the constructor |
| PersonEntity.OptionalFieldsIrrelevant | src/domain/entities/Person.ts:18-25 | arguments that agree on the six required fields give the same verdict and the same message: id, telephone, address and timestamps never matter |
| PersonEntity.EarliestFailureWins | src/domain/entities/Person.ts:19-24 | empty name plus empty state gives "Name is required" |
| Dates.Pad | src/application/mappers/PersonMapper.ts:23 | a zero-padded field has exactly the requested width and only digits |
| Dates.PadValue | src/application/mappers/PersonMapper.ts:23 | the padded digits read back as the number written |
| Dates.CalendarDate | src/application/mappers/PersonMapper.ts:23 | the YYYY-MM-DD form has length 10 |
| Dates.IsoString | src/application/mappers/PersonMapper.ts:29-30 | the toISOString form YYYY-MM-DDTHH:mm:ss.sssZ has length 24 |
| Dates.Before | src/application/mappers/PersonMapper.ts:23 | split('T')[0] is a prefix with no 'T' that stops exactly at the first 'T' (or is the whole string) |
| Dates.BeforeFirst | src/application/mappers/PersonMapper.ts:23 | the text before the first separator of a + sep + b is exactly a when a has no separator |
| Dates.CalendarDateShape | src/application/mappers/PersonMapper.ts:23 | the calendar date has the shape DDDD-DD-DD and contains no 'T' |
| Dates.DatePartOfIsoString | src/application/mappers/PersonMapper.ts:23 | the part of the ISO timestamp before 'T' is the UTC calendar date |
| Dates.CalendarDateFields | src/application/mappers/PersonMapper.ts:23 | the calendar date reads back as its year, month and day |
| Dates.CalendarDateIffSameDay | src/application/mappers/PersonMapper.ts:23 | two instants have the same calendar date iff they fall on the same UTC day, whatever their time |
| PersonMapper.OptionalIso | src/application/mappers/PersonMapper.ts:29-30 | an absent timestamp stays absent; a present one becomes its full ISO string |
| PersonMapper.DatePart | src/application/mappers/PersonMapper.ts:23 | toISOString().split('T')[0] is exactly the YYYY-MM-DD calendar date |
| PersonMapper.ToDTO | src/application/mappers/PersonMapper.ts:18-32 | id (null included) and the seven string fields are copied unchanged; dateOfBirth is the UTC calendar date; createdAt and updatedAt are undefined exactly when the entity's are, else the full ISO strings |
| PersonMapper.DateOfBirthShape | src/application/mappers/PersonMapper.ts:23 | the wire dateOfBirth has length 10, the shape DDDD-DD-DD, and no 'T' |
| PersonMapper.DateOfBirthIffSameDay | src/application/mappers/PersonMapper.ts:23 | two people get the same wire dateOfBirth iff their birth instants fall on the same UTC day |
| PersonMapper.NewYear1990 | src/application/mappers/PersonMapper.spec.ts:19-23 | 1 January 1990 is sent as "1990-01-01" |
| UseCases.CreatePerson | src/application/use-cases/CreatePersonUseCase.ts:8-21 | the repository is called at most once, and not at all iff the entity check fails; then the entity's message is raised without a code, and it is never "Date of birth is required"; otherwise create receives a valid Person with null id, the input's name, email, date, cpf, city, state and telephone, no address and no timestamps, and its answer is returned unchanged |
| UseCases.UpdatePerson | src/application/use-cases/UpdatePersonUseCase.ts:8-22 | the repository is called at most once, and not at all iff the entity check fails, which raises the entity's message; otherwise update receives the same id and a valid Person with that id, the copied required fields, the input's address in the telephone slot and its telephone in the address slot, and its answer is returned unchanged |
| UseCases.GetPersonById | src/application/use-cases/GetPersonByIdUseCase.ts:7-9 | findById is called exactly once with the same id, and its answer (a person, null, or an error) is returned unchanged |
| UseCases.GetAllPersons | src/application/use-cases/GetAllPersonsUseCase.ts:7-9 | findAll is called exactly once, and its list or error is returned unchanged |
| UseCases.DeletePerson | src/application/use-cases/DeletePersonUseCase.ts:6-8 | delete is called exactly once with the same id, whether it succeeds or fails; the use case completes with no value or rejects with delete's error |
| UseCases.CreateHandsOverTheEntity | src/application/use-cases/CreatePersonUseCase.ts:9-20 | for acceptable input, the one call create receives is exactly the Person the entity builds |
| UseCases.UpdateEmptyName | src/application/use-cases/UpdatePersonUseCase.spec.ts:90-102 | an empty name raises "Name is required" and update is not called |
| UseCases.UpdateSwapsContactFields | src/application/use-cases/UpdatePersonUseCase.ts:17-18 | Update builds Create's Person with the given id and with telephone and address exchanged |
| PrismaRepository.WriteData | src/infrastructure/repositories/PrismaPersonRepository.ts:9-19 | the payload written is exactly name, email, dateOfBirth, cpf, city, state and telephone, from the Person |
| PrismaRepository.MapToDomain | src/infrastructure/repositories/PrismaPersonRepository.ts:60-73 | rehydration re-runs validation; it succeeds iff the row's five required strings are non-empty, and otherwise raises that field's entity message without a code; on success the row's telephone, createdAt and updatedAt occupy the telephone, address and createdAt slots, and updatedAt is unset |
| PrismaRepository.MapAll | src/infrastructure/repositories/PrismaPersonRepository.ts:25-26 | every row is rehydrated, keeping count and order, iff every row passes |
| PrismaRepository.MapAllFirstFailure | src/infrastructure/repositories/PrismaPersonRepository.ts:26 | when rows before k rehydrate and row k does not, findAll rejects with row k's error |
| PrismaRepository.Create | src/infrastructure/repositories/PrismaPersonRepository.ts:8-22 | the client's create gets the seven-field payload; a client error propagates unchanged; a returned row is rehydrated |
| PrismaRepository.FindAll | src/infrastructure/repositories/PrismaPersonRepository.ts:24-27 | a client error propagates unchanged; the returned rows are rehydrated as MapAll states |
| PrismaRepository.FindById | src/infrastructure/repositories/PrismaPersonRepository.ts:29-35 | the result is null exactly when the client returns null; client errors propagate; a found row is rehydrated |
| PrismaRepository.Update | src/infrastructure/repositories/PrismaPersonRepository.ts:37-52 | the client's update targets the id argument with the seven-field payload; a client error propagates unchanged; a returned row is rehydrated |
| PrismaRepository.Delete | src/infrastructure/repositories/PrismaPersonRepository.ts:54-58 | it completes with no value exactly when the client's delete succeeds, and otherwise rejects with the client's error |
| PrismaRepository.WriteThenRehydrate | src/infrastructure/repositories/PrismaPersonRepository.ts:60-72 | writing a valid Person and rehydrating the stored row gives back its caller-supplied fields with the assigned id, its address replaced by the row's createdAt, createdAt set to the row's updatedAt, and updatedAt unset |
| PrismaRepository.RehydratedTimestamps | src/infrastructure/repositories/PrismaPersonRepository.ts:68-71 | a rehydrated Person has no updatedAt, createdAt is the row's updatedAt, and the address is the row's createdAt |
| PersonController.ToDTOs | src/presentation/controllers/PersonController.ts:35 | people.map(toDTO) has the same length and maps each element in order |
| PersonController.Create | src/presentation/controllers/PersonController.ts:19-30 | 201 with toDTO(person) exactly on success; an error gives 400 "Email or CPF already exists" (not logged) iff its code is P2002, and otherwise a logged 500 "Internal server error" |
| PersonController.GetAll | src/presentation/controllers/PersonController.ts:32-40 | the default 200 with every person mapped in order exactly on success; every error is a logged 500, whatever its code |
| PersonController.GetById | src/presentation/controllers/PersonController.ts:42-53 | 404 "Person not found" iff the use case returns null; 200 with toDTO iff it returns a person; every error is a logged 500, whatever its code |
| PersonController.Update | src/presentation/controllers/PersonController.ts:55-75 | 200 with toDTO exactly on success; an error gives 404 iff its code is P2025, 400 iff P2002, and otherwise a logged 500 |
| PersonController.Delete | src/presentation/controllers/PersonController.ts:77-88 | 204 with an empty body, unlogged, exactly on success; 404 iff the code is P2025; otherwise a logged 500 |
| PersonController.UncodedErrorsAreInternal | src/presentation/controllers/PersonController.ts:19-88 | an error without a provider code is a logged 500 from every handler |
| Scenarios.RejectedInputIsInternalError | src/presentation/controllers/PersonController.ts:65-74 | create or update with a missing or empty required field never reaches the repository and replies with a logged 500 |
| Scenarios.DuplicateCreateIs400 | src/presentation/controllers/PersonController.ts:24-26 | a unique-constraint error from the client travels unchanged through adapter and use case and becomes 400 "Email or CPF already exists" |
| Scenarios.CreateJohnDoe | src/presentation/controllers/PersonController.ts:19-22 | POST of John Doe's data against a database that stores it gives 201 with name "John Doe", dateOfBirth "1990-01-01" and a non-null id |
| Scenarios.GetMissingIs404 | src/presentation/controllers/PersonController.ts:44-47 | GET of an id the database does not hold gives 404 "Person not found" |
| Scenarios.CreateThenFind | src/infrastructure/repositories/PrismaPersonRepository.ts:8-35 | fetching the row that create stored returns every caller-supplied field with the assigned id, except the address, which holds the creation time |

## Left out

- Fastify routing, route registration, JSON-schema body validation and Swagger setup are framework behaviour (src/presentation/routes/, src/presentation/schemas/, src/app.ts and src/server.ts are not part of this model).
- The Prisma client, the database, uniqueness and not-found detection, and plugin connect/disconnect are foreign code. The client's answers and error codes are inputs. There is no stored state, so "delete then find gives absence" and "N creates then findAll has length N" are about the database and are not stated.
- Promises and async: each call is a value that resolves or rejects. There is no concurrency.
- `console.error`: only whether a reply was logged is recorded, as `logged`.
- `parseInt` on the path id: ids are integers, and NaN and non-digit ids are not modelled.
- Date edge cases: an Invalid Date (where `toISOString` throws, also inside the controller's `try`), years outside 0000 to 9999, time zones, and parsing a date string in `new Date(...)`. Dates arrive already parsed as valid UTC instants.
- `null` and `undefined` are both `None`. A telephone column that comes back `null` is not told apart from one left `undefined`, and the JSON serializer's omission of `undefined` fields (and its writing of a Date in the address field as a string) is not modelled.
- The row's required columns are typed non-null strings, so a `null` column coming back from the database is not modelled. An empty string is.
- PersonController.Update: checking P2025 before P2002 cannot be observed, because an error carries one code. The contract states each code's reply separately.
