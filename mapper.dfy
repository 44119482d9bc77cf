/** The wire mapper (src/application/mappers/PersonMapper.ts): projects a
    Person to the JSON shape sent to clients. */
module PersonMapper {
  import opened Wrappers
  import opened Dates
  import opened PersonEntity

  /** The response shape. `None` is a field left `undefined`, which the JSON
      serializer omits. */
  datatype PersonDTO = PersonDTO(
    id: Option<int>,
    name: string,
    email: string,
    dateOfBirth: string,
    cpf: string,
    city: string,
    state: string,
    address: Option<Scalar>,
    telephone: Option<string>,
    createdAt: Option<string>,
    updatedAt: Option<string>)

  /** `person.createdAt?.toISOString()`. */
  function OptionalIso(t: Option<Instant>): (r: Option<string>)
    ensures r.None? <==> t.None?
    ensures t.Some? ==> r.value == IsoString(t.value)
  {
    match t
    case None => None
    case Some(v) => Some(IsoString(v))
  }

  /** `date.toISOString().split('T')[0]`: the UTC calendar date. */
  function DatePart(d: Instant): (s: string)
    ensures s == CalendarDate(d)
  {
    DatePartOfIsoString(d);
    Before(IsoString(d), 'T')
  }

  /** `PersonMapper.toDTO`. The date of birth becomes the UTC calendar date
      (the text of the ISO timestamp before its 'T'). Every other field is
      copied, and the two timestamps become full ISO strings when present. */
  function ToDTO(p: Person): (r: PersonDTO)
    ensures r.id == p.id
    ensures r.name == p.name && r.email == p.email && r.cpf == p.cpf
    ensures r.city == p.city && r.state == p.state
    ensures r.address == p.address && r.telephone == p.telephone
    ensures r.dateOfBirth == CalendarDate(p.dateOfBirth)
    ensures r.createdAt.None? <==> p.createdAt.None?
    ensures r.updatedAt.None? <==> p.updatedAt.None?
    ensures p.createdAt.Some? ==> r.createdAt == Some(IsoString(p.createdAt.value))
    ensures p.updatedAt.Some? ==> r.updatedAt == Some(IsoString(p.updatedAt.value))
  {
    PersonDTO(
      p.id, p.name, p.email, DatePart(p.dateOfBirth), p.cpf, p.city, p.state,
      p.address, p.telephone, OptionalIso(p.createdAt), OptionalIso(p.updatedAt))
  }

  /** The wire date of birth is `YYYY-MM-DD`: ten characters, digits around two
      dashes, no time part. */
  lemma DateOfBirthShape(p: Person)
    ensures var s := ToDTO(p).dateOfBirth;
      && |s| == 10 && s[4] == '-' && s[7] == '-'
      && AllDigits(s[..4]) && AllDigits(s[5..7]) && AllDigits(s[8..])
      && 'T' !in s
  {
    CalendarDateShape(p.dateOfBirth);
  }

  /** Two people get the same wire date of birth exactly when their dates of
      birth fall on the same UTC day; the time of day is dropped. */
  lemma DateOfBirthIffSameDay(p: Person, q: Person)
    ensures ToDTO(p).dateOfBirth == ToDTO(q).dateOfBirth <==> SameDay(p.dateOfBirth, q.dateOfBirth)
  {
    CalendarDateIffSameDay(p.dateOfBirth, q.dateOfBirth);
  }

  /** 1 January 1990 is sent as "1990-01-01". */
  lemma NewYear1990(p: Person)
    requires p.dateOfBirth == DateTime(1990, 1, 1, 0, 0, 0, 0)
    ensures ToDTO(p).dateOfBirth == "1990-01-01"
  {
    CalendarDate1990();
  }
}
