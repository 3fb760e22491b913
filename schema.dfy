/**
 * The tables of the operations tracker (app.py, lines 52-191) as rows, and
 * the handful of literals the handlers compare against.
 *
 * A table is a sequence of rows. No route ever deletes a row and ids are
 * handed out by the database as 1, 2, 3, ..., so the row with id `k` is the
 * element at index `k - 1`; `HasId` and `Row` are `Model.query.get(k)`.
 *
 * This follows SQLite, the fallback database: ids have no gaps, foreign keys
 * are not enforced and `String(n)` widths are not limited. PostgreSQL leaves
 * gaps after a rolled-back insert and enforces both; that is not modelled.
 */
module Schema {
  import opened Wrappers

  const Founder := "founder"
  const Freelancer := "freelancer"
  const NotStarted := "not_started"
  const SentToClient := "sent_to_client"

  /** A wall-clock reading, abstracted to a counter that only increases. */
  type Timestamp = nat

  /** A calendar date as `strptime(..., "%Y-%m-%d").date()` yields it. */
  datatype Date = Date(year: int, month: int, day: int)

  /** The authenticated caller (`current_user`): its id and its role column. */
  datatype Actor = Actor(id: int, role: string)

  /** How a handler ends, in place of its flash message, redirect or abort. */
  datatype Outcome =
    | Ok            // the change was committed
    | Invalid       // a required field is missing ("... are required", "Could not change role")
    | InvalidDate   // a date did not parse ("Invalid dates for event", "Invalid session date")
    | NotAvailable  // "Card not available"
    | NotFound      // "Could not return card", "Task not found", "User not found"
    | Forbidden     // abort(403)
    | Conflict      // the e-mail or the card label is already taken
    | Ignored       // a founder-only form posted by a non-founder: nothing happens at all

  datatype User = User(name: string, email: string, passwordHash: string, role: string, active: bool)

  datatype Event = Event(name: string, dateStart: Date, dateEnd: Date, location: string)

  datatype Session = Session(eventId: int, labelText: string, date: Date, timeBlock: Option<string>)

  datatype Package = Package(name: string, description: string)

  datatype Athlete = Athlete(name: string, team: string, weightClass: string, notes: string)

  /** A booking: one athlete in one session under one package. */
  datatype AthleteSession = AthleteSession(
    athleteId: int, sessionId: int, packageId: int,
    musicLink: string, musicStart: string, musicEnd: string,
    paid: bool, notes: string)

  datatype CardStatus = Available | CheckedOut | Lost

  datatype SdCard = SdCard(labelText: string, capacityGb: Option<int>, status: CardStatus)

  /** One checkout of a card; `returnedAt == None` while the card is out. */
  datatype SdCardLog = SdCardLog(
    cardId: int, userId: int, eventId: Option<int>, sessionId: Option<int>,
    purpose: string, checkedOutAt: Timestamp, returnedAt: Option<Timestamp>)

  datatype ManpowerAllocation = ManpowerAllocation(
    eventId: int, sessionId: int, userId: int, role: string, notes: string)

  /** `kind` is the `type` column (photos, highlight, static_video, or any other text). */
  datatype EditTask = EditTask(
    bookingId: int, assigneeId: int, kind: string,
    status: string, deliverableLink: Option<string>, updatedAt: Timestamp)

  /** The whole database. */
  datatype Db = Db(
    users: seq<User>,
    events: seq<Event>,
    sessions: seq<Session>,
    packages: seq<Package>,
    athletes: seq<Athlete>,
    bookings: seq<AthleteSession>,
    cards: seq<SdCard>,
    logs: seq<SdCardLog>,
    allocations: seq<ManpowerAllocation>,
    tasks: seq<EditTask>)

  /** `Model.query.get(id)` finds a row. */
  predicate HasId<T>(table: seq<T>, id: int) {
    1 <= id <= |table|
  }

  /** The row `Model.query.get(id)` returns. */
  function Row<T>(table: seq<T>, id: int): T
    requires HasId(table, id)
  {
    table[id - 1]
  }

  /** The table with the row of the given id replaced. */
  function SetRow<T>(table: seq<T>, id: int, row: T): seq<T>
    requires HasId(table, id)
  {
    table[id - 1 := row]
  }
}
