/**
 * The two stored record shapes, the reply a route handler sends, and the
 * two case-insensitive match predicates that the event filters share.
 */
module Records {
  import opened Wrappers
  import opened Text

  const Ok: nat := 200
  const Created: nat := 201
  const BadRequest: nat := 400
  const NotFound: nat := 404

  /** JavaScript falsiness of a string field of a request body: missing or empty. */
  predicate Falsy(field: Option<string>): (b: bool)
    ensures b <==> field == None || field == Some("")
  {
    field.None? || field.value == ""
  }

  /** A stored user; `password` holds the bcrypt hash, never the plain text. */
  datatype User = User(id: string, email: string, password: string)

  /** An event, as stored by the backend and as received by the frontend. */
  datatype Event = Event(
    id: string,
    title: string,
    description: string,
    location: string,
    date: string,
    maxParticipants: int,
    currentParticipants: int)

  /** What a handler sends: a status with a JSON body, or a status with `{ error }`. */
  datatype Reply<+T> = Success(status: nat, body: T) | Failure(status: nat, error: string)

  /** `event.location.toLowerCase().includes(filter.toLowerCase())` */
  function LocationIncludes(filter: string): Event -> bool
  {
    (e: Event) => Includes(e.location, filter)
  }

  /** `event.title.toLowerCase().includes(query.toLowerCase())` */
  function TitleIncludes(query: string): Event -> bool
  {
    (e: Event) => Includes(e.title, query)
  }
}
