# Ascend operations tracker: a Dafny model of its request handlers

The tracker is a small Flask application (`app.py`) that a sports media team
uses to run events. It has events and their sessions, the athletes booked
into sessions under a package, the staff allocated to sessions, the SD cards
the photographers take out and bring back, and the edit tasks for each
booking. This project models what the POST handlers do to the database
once HTTP, templates and the ORM are taken away. Each handler becomes a
method of one `App.Store` object that owns every table. The method takes the
signed-in caller and the parsed form fields, and returns an `Outcome` in
place of the flash message, redirect or `abort(403)`.

Modules:

- `Schema` (`schema.dfy`): the tables as rows, and the literals the handlers
  compare against. A table is a sequence. Rows are never deleted and the
  database numbers them 1, 2, 3, ..., so the row with id `k` is element `k - 1`.
  This is how SQLite, the default database, behaves.
- `Text` (`text.dfy`): `strip()` with Python's whitespace set, ASCII `lower()`,
  `startswith`, and `replace(old, new, 1)` together with the search for the first
  occurrence that it performs.
- `Config` (`config.dfy`): the `DATABASE_URL` rewrite.
- `Access` (`access.dfy`): the two role rules. Some actions are founder-only;
  an edit-task update is open to the founder or the task's assignee.
- `Custody` (`custody.dfy`): the SD-card custody invariant, and the proofs
  that card creation, checkout and return keep it.
- `Queries` (`queries.dfy`): the dashboard counts, the filtered listings, the
  `filter_by(...).first()` look-ups, and the table invariants they rely on.
- `App` (`app.dfy`): the `Store` class and one method per handler branch.

`Store.Valid()` bundles what every handler keeps:

- custody: a card is out exactly when one of its log rows is open;
- card labels are unique, and user e-mails are unique and normalised;
- there is one athlete per (name, team), and every booking names an athlete;
- every timestamp lies within the store's clock.

The constructor establishes `Valid()`. Every handler requires it and
ensures it again.

## Model

| member | source | states |
|---|---|---|
| Access.Permits | app.py:207-213 | the role check: a founder passes every check, and the assignee of a task passes the check on that task whatever their role |
| Text.Strip | app.py:276 | `strip()` never makes a field longer; `Text.StripSpec` and `Text.StripCuts` state what it keeps |
| Text.StripSpec | app.py:276-277 | `strip()` leaves no whitespace at either end, and its result is empty exactly when the field is all whitespace: that is when a "required" check rejects the field |
| Text.StripCuts | app.py:276-277 | `strip()` removes whitespace from the two ends and keeps the middle of the string exactly |
| Text.StripLeftSpec | app.py:276 | `lstrip` keeps a suffix; everything it dropped is whitespace, and the result does not start with whitespace |
| Text.StripRightSpec | app.py:276 | `rstrip` keeps a prefix; everything it dropped is whitespace, and the result does not end with whitespace |
| Text.StripTrimmed | app.py:276 | a string with no whitespace at either end is returned unchanged |
| Text.StripIdempotent | app.py:276 | stripping twice is the same as stripping once |
| Text.Lower | app.py:681 | `lower()` keeps the length and lowers each character on its own |
| Text.LowerKeepsTrimmed | app.py:681 | lowering a trimmed string leaves it trimmed |
| Text.LowerIdempotent | app.py:681 | lowering twice is the same as lowering once |
| Text.NormalizeEmail | app.py:681 | the normal form of an e-mail is no longer than the input, and `strip()` and `lower()` leave it as it is |
| Text.NormalizeEmailIdempotent | app.py:681 | normalising an e-mail that is already `strip().lower()`-normal changes nothing |
| Text.HasPrefix | app.py:35 | `startswith(p)` holds exactly when `p` occurs at index 0, where the search for `p` then stops |
| Text.IndexFrom | app.py:37 | the search returns the first index at or after the start where the pattern occurs, or reports that none exists |
| Text.ReplaceFirst | app.py:37 | `replace(old, new, 1)` returns the string unchanged when `old` occurs nowhere; otherwise it replaces the first occurrence and only that one; on a string starting with `old`, the result is `new` followed by the rest |
| Config.DatabaseUri | app.py:34-39 | an unset or empty variable gives the SQLite fallback; a leading `postgres://` changes to `postgresql+psycopg2://` and the rest of the URL is kept; any other value is used as it is |
| Config.DatabaseUriNotLegacy | app.py:34-39 | the configured URI never starts with `postgres://` and is never empty |
| Config.DatabaseUriStable | app.py:34-39 | feeding the configured URI back in as `DATABASE_URL` gives the same URI |
| Custody.CheckedOutIffOneOpenLog | app.py:294-316 | under the invariant, a card is checked out if and only if exactly one of its log rows is open, and no card has more than one |
| Custody.OpenCountAppend | app.py:303 | appending a log row adds one to its card's open count exactly when the row is open |
| Custody.OpenCountUnnamed | app.py:280 | a card that no log row names has no open row |
| Custody.OpenCountClose | app.py:313 | closing an open row takes one off its own card's open count and leaves every other card's count alone |
| Custody.CustodyEmpty | app.py:729-731 | the empty database satisfies the custody invariant |
| Custody.AddCardKeepsCustody | app.py:279-282 | adding an available card keeps the invariant |
| Custody.CheckoutKeepsCustody | app.py:294-304 | marking an available card checked out and opening one log row for it keeps the invariant |
| Custody.ReturnKeepsCustody | app.py:312-316 | the card of an open log row is checked out; closing the row and making the card available keeps the invariant |
| Custody.SumOpenAppend | app.py:254 | an appended row adds one to the summed open counts of cards 1..n exactly when it is open and names one of them |
| Custody.SumOpenNoLogs | app.py:254 | with no log rows, the summed open counts are zero |
| Custody.SumOpenIsTotal | app.py:254 | when every row names a card among 1..n, the summed open counts equal the number of open rows |
| Custody.SumOpenIsCheckedOut | app.py:254 | under the invariant, the summed open counts of cards 1..n equal the number of those cards that are checked out |
| Custody.InUseEqualsOpenLogs | app.py:254 | under the invariant, the dashboard's "SD cards in use" equals the number of open log rows |
| Custody.CheckedOutCount | app.py:254 | the number of checked-out cards is never more than the number of cards |
| Queries.PendingEdits | app.py:255 | the pending count is at most the number of tasks, and it is zero exactly when every task has been sent to the client |
| Queries.PendingEditsSet | app.py:530-533 | replacing one task changes the pending count only by the change in that task |
| Queries.PendingEditsAppend | app.py:507-513 | a new task adds one to the pending count unless it is already sent to the client |
| Queries.ListedTasksUpTo | app.py:548-557 | among the first n tasks, listed are exactly those that survive the joins and meet every filter supplied, in increasing id |
| Queries.ListedTasks | app.py:548-557 | the edits page lists exactly the tasks whose booking, session, event and assignee exist and that meet every filter supplied; a filter left out constrains nothing; no task is listed twice |
| Queries.ListedBookingsUpTo | app.py:401-405 | among the first n bookings, listed are exactly those that survive the joins and meet every filter supplied, in increasing id |
| Queries.ListedBookings | app.py:401-405 | the athletes page lists exactly the bookings whose athlete, session and event exist and that meet the event and session filters when those are supplied |
| Queries.FindAthlete | app.py:367 | the look-up returns the lowest id whose athlete has that name and team, or none when no athlete has them |
| Queries.FindAthleteAppend | app.py:367-376 | after an athlete is appended, an earlier hit stays the answer; with no earlier hit, the new row is found if it has the pair |
| Queries.EnsureAthlete | app.py:367-378 | get-or-create: the table changes only when the pair is missing, and then gains exactly the new athlete; the id returned is the one the look-up now finds; distinct pairs stay distinct |
| Queries.EnsureAthleteAgain | app.py:367-368 | naming the same pair a second time adds nothing and finds the same athlete |
| Queries.LabelTaken | app.py:138 | on a table with unique labels, a label counts as taken exactly when one more card with it would break the uniqueness of the `label` column |
| Queries.FindUserByEmail | app.py:689 | the look-up returns a user with exactly that e-mail, or none when no user has it |
| Queries.FindAthleteExact | app.py:367 | with distinct pairs, each athlete is found by its own name and team |
| Queries.AddBookingKeepsAthletes | app.py:378-387 | a booking for an existing athlete, after the athlete table has only grown, keeps every booking's athlete in the table |
| Queries.RestatusKeepsLabels | app.py:302 | changing a card's status keeps the labels unique |
| Queries.AddCardKeepsLabels | app.py:279-282 | a card with a label not yet taken keeps the labels unique |
| App.OpenLogKeepsTimes | app.py:155 | a checkout stamped with the current time keeps every timestamp within the clock |
| App.CloseLogKeepsTimes | app.py:313 | a return stamped with the next time keeps every timestamp within the clock, and the card came back strictly after it went out; that order comes from `Store.Now` being a counter, since `datetime.utcnow()` promises none |
| App.Revised | app.py:530-533 | a blank status or link keeps the old value and a non-blank one replaces it, after stripping; the time is always refreshed; booking, assignee and type stay |
| App.DeliveredLeavesPending | app.py:530-533 | setting a pending task's status to "sent_to_client" takes one off the dashboard's pending count |
| App.RevisedAgain | app.py:530-533 | posting the same update twice is the same as posting it once, later |
| App.OptionalText | app.py:613-629 | a blank time block is stored as none; any other value is stored stripped, and it is non-empty and trimmed |
| App.Store.constructor | app.py:729-731 | the new database is empty, and valid |
| App.Store.Now | app.py:155 | each reading is one later than the last one |
| App.Store.Dashboard | app.py:253-255 | the three dashboard figures: the number of cards; the number checked out, which equals the number of open log rows and is at most the number of cards; and the number of tasks not yet sent to the client |
| App.Store.AddCard | app.py:275-285 | a non-founder is ignored; a blank label is refused; a label already in the table is refused by the unique column; otherwise an available card is appended and nothing else changes |
| App.Store.Checkout | app.py:287-307 | succeeds exactly when the card exists and is available; then only that card turns checked out and one open log row is appended, naming the card and the caller with the current time; otherwise nothing changes |
| App.Store.Return | app.py:309-319 | succeeds exactly when the log row exists and is open; that row's card was checked out; the row gets the current time and the card becomes available; otherwise nothing changes |
| App.Store.BookAthlete | app.py:348-390 | a non-founder is ignored; a blank name or a missing session or package writes nothing; otherwise the athlete is found by (name, team) and reused untouched, or created; one booking for it is appended |
| App.Store.BookTwice | app.py:367-389 | booking the same pair twice adds at most one athlete and two bookings, and both bookings name the same athlete |
| App.Store.AllocateManpower | app.py:451-470 | a non-founder is ignored; unless event, session, user and role are all given, nothing is written; otherwise exactly one allocation is appended |
| App.Store.AddTask | app.py:502-517 | a non-founder is ignored; unless booking, assignee and type are all given, nothing is written; otherwise one task is appended, not started, with no link, stamped now, and the pending count goes up by one |
| App.Store.UpdateTask | app.py:519-535 | a missing task is reported first; a caller who is neither founder nor assignee is forbidden, and nothing changes; otherwise only that task is revised |
| App.Store.AddEvent | app.py:579-607 | non-founders are forbidden; an unparsable date is refused before the name is checked; a blank name is refused; otherwise one event is appended |
| App.Store.AddSession | app.py:609-633 | non-founders are forbidden; a missing event, label or date is refused before the date is parsed; an unparsable date is refused; otherwise one session is appended |
| App.Store.AddPackage | app.py:646-660 | non-founders are forbidden; a blank name is refused; otherwise one package is appended |
| App.Store.AddUser | app.py:672-697 | non-founders are forbidden; a blank name or e-mail, or an empty password, is refused (the password is not stripped, so one of spaces is accepted); an e-mail already in the table, after normalising, is refused; otherwise one user is appended, with both invariants on e-mails kept |
| App.Store.ToggleActive | app.py:699-707 | non-founders are forbidden; a missing user is reported; otherwise only that user's active flag is negated |
| App.Store.ToggleTwice | app.py:699-707 | toggling the same user twice gives the same outcome both times and restores the database |
| App.Store.ChangeRole | app.py:709-718 | non-founders are forbidden; the change succeeds exactly when the user exists and the stripped role is "founder" or "freelancer", and then only that user's role changes |

## Left out

- Login, logout and `load_user` (app.py 198-242) are left out: the caller is always an
  authenticated `Actor(id, role)` given as a parameter, so `login_required` is not modelled.
- Password hashing is a function parameter `hash` of `AddUser`; `check_password` is not modelled.
- `strptime("%Y-%m-%d")` is a function parameter `parse` of `AddEvent` and `AddSession`; its grammar is not modelled.
- `datetime.utcnow()` is replaced by `Store.Now()`, a counter that goes up by one per reading.
- The `int()` conversions of raw form strings (app.py 280, 298-299, 380-381) raise on
  non-numeric input. The model takes those fields as already parsed (`Option<int>`, none when
  the field is empty), so that crash path is not modelled.
- The card id of a checkout (app.py 287, 292) and the log id of a return (app.py 309-310)
  are raw form strings handed straight to `query.get`. `Store.Checkout` and `Store.Return`
  take them as already parsed `Option<int>`, so how `query.get` treats a missing or
  non-numeric string is not modelled.
- `Store.AddCard`: the source does not check the label itself; a repeated label makes the
  commit fail on the unique column. The model reports that as `Conflict` with no change.
- The model follows SQLite, the fallback database: ids have no gaps, foreign keys are not
  enforced and `String(n)` widths are not limited. On PostgreSQL a rolled-back insert leaves a gap
  in the ids, a dangling foreign key is refused at commit and an over-long string is refused; none
  of that is modelled.
- Foreign keys are not checked by any handler and are not invented here: allocations, tasks,
  sessions and bookings may name ids that do not exist. The listings drop such rows through their joins.
- The card status "lost" exists in the schema, but no handler sets it.
- `Text.Lower`: only ASCII letters are lowered; Python's Unicode case mapping is not modelled.
- Concurrency and transactions are not modelled: two checkouts of one card cannot race in the model.
- Of the GET paths, only two listings are modelled, as the rows they hold: the edits page
  (`Queries.ListedTasks`, app.py 548-559) and the athletes page (`Queries.ListedBookings`,
  app.py 401-407). Both come back in id order; their `order_by` is dropped. No other GET path
  is modelled: not the open-log list of the SD-card page (app.py 326-330), the manpower list
  (app.py 477-481), `session_athletes_view` with its `get_or_404` and its join on `Package`
  (app.py 420-441), the event, session, user and package lists, or any rendering.
- Unknown `action` values do nothing and are not modelled.
- `create_admin.py` is not part of this model. It adds a user from console input, outside the
  handlers. It strips and lowers the e-mail and refuses one already in the table, so the e-mail
  invariants hold for its users too. It does not check that the name, e-mail and password are
  non-empty (app.py 686), so a blank one can be stored, and it always creates an active founder.
