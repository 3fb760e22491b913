/**
 * The read side: the dashboard counts (app.py 253-255), the filtered
 * listings of the athletes and edits pages (402-407, 548-559), the
 * `filter_by(...).first()` look-ups the handlers use (367, 689), and the
 * properties of the tables those look-ups keep.
 */
module Queries {
  import opened Wrappers
  import opened Text
  import opened Schema

  // ---------------------------------------------------------------- dashboard

  predicate IsPending(t: EditTask) {
    t.status != SentToClient
  }

  /** `EditTask.query.filter(EditTask.status != "sent_to_client").count()`. */
  function PendingEdits(tasks: seq<EditTask>): (n: nat)
    ensures n <= |tasks|
    ensures n == 0 <==> forall k :: 0 <= k < |tasks| ==> !IsPending(tasks[k])
  {
    if tasks == [] then 0
    else
      var init := tasks[..|tasks| - 1];
      assert forall k :: 0 <= k < |init| ==> init[k] == tasks[k];
      PendingEdits(init) + (if IsPending(tasks[|tasks| - 1]) then 1 else 0)
  }

  /** Replacing one task changes the pending count by the change in that task alone. */
  lemma {:induction false} PendingEditsSet(tasks: seq<EditTask>, k: int, t: EditTask)
    requires 0 <= k < |tasks|
    ensures PendingEdits(tasks[k := t]) + (if IsPending(tasks[k]) then 1 else 0)
            == PendingEdits(tasks) + (if IsPending(t) then 1 else 0)
  {
    var n, updated := |tasks|, tasks[k := t];
    var init, init' := tasks[..n - 1], updated[..n - 1];
    assert PendingEdits(tasks) == PendingEdits(init) + (if IsPending(tasks[n - 1]) then 1 else 0);
    assert PendingEdits(updated) == PendingEdits(init') + (if IsPending(updated[n - 1]) then 1 else 0);
    if k == n - 1 {
      assert init' == init;
    } else {
      assert init' == init[k := t];
      PendingEditsSet(init, k, t);
    }
  }

  /** A new task counts as pending unless it is created already delivered. */
  lemma PendingEditsAppend(tasks: seq<EditTask>, t: EditTask)
    ensures PendingEdits(tasks + [t]) == PendingEdits(tasks) + (if IsPending(t) then 1 else 0)
  {
    assert (tasks + [t])[..|tasks|] == tasks;
  }

  // ---------------------------------------------------------------- listings

  /** An integer form or query field (`get(k, type=int)`) that counts as given: present and truthy (not 0). */
  predicate Supplied(o: Option<int>) {
    o.Some? && o.value != 0
  }

  /** A string query field that counts as given: present and non-empty. */
  predicate SuppliedText(o: Option<string>) {
    o.Some? && o.value != ""
  }

  /** The filters of the edits page: event, session, editor and status. */
  datatype TaskFilter = TaskFilter(eventId: Option<int>, sessionId: Option<int>, editorId: Option<int>, status: Option<string>)

  /**
   * The task survives the inner joins of the edits listing: its booking, that
   * booking's session, the session's event and the assignee all exist.
   */
  predicate TaskJoined(db: Db, id: int)
    requires HasId(db.tasks, id)
  {
    var t := Row(db.tasks, id);
    && HasId(db.bookings, t.bookingId)
    && HasId(db.sessions, Row(db.bookings, t.bookingId).sessionId)
    && HasId(db.events, Row(db.sessions, Row(db.bookings, t.bookingId).sessionId).eventId)
    && HasId(db.users, t.assigneeId)
  }

  /** The task is joined and meets every filter that was supplied; an omitted filter constrains nothing. */
  predicate TaskListed(db: Db, f: TaskFilter, id: int)
    requires HasId(db.tasks, id)
  {
    && TaskJoined(db, id)
    && var t := Row(db.tasks, id);
       var b := Row(db.bookings, t.bookingId);
       var s := Row(db.sessions, b.sessionId);
       && (Supplied(f.eventId) ==> s.eventId == f.eventId.value)
       && (Supplied(f.sessionId) ==> b.sessionId == f.sessionId.value)
       && (Supplied(f.editorId) ==> t.assigneeId == f.editorId.value)
       && (SuppliedText(f.status) ==> t.status == f.status.value)
  }

  predicate Increasing(ids: seq<int>) {
    forall i, j :: 0 <= i < j < |ids| ==> ids[i] < ids[j]
  }

  /** The ids among the first `n` tasks that the edits page lists, lowest first. */
  function ListedTasksUpTo(db: Db, f: TaskFilter, n: nat): (ids: seq<int>)
    requires n <= |db.tasks|
    ensures forall id :: id in ids <==> 1 <= id <= n && TaskListed(db, f, id)
    ensures forall i :: 0 <= i < |ids| ==> 1 <= ids[i] <= n
    ensures Increasing(ids)
  {
    if n == 0 then []
    else
      var prefix := ListedTasksUpTo(db, f, n - 1);
      if TaskListed(db, f, n) then prefix + [n] else prefix
  }

  /** The tasks the edits page lists (app.py 548-559): exactly the joined tasks meeting every supplied filter, each once. */
  function ListedTasks(db: Db, f: TaskFilter): (ids: seq<int>)
    ensures forall id :: id in ids <==> HasId(db.tasks, id) && TaskListed(db, f, id)
    ensures Increasing(ids)
  {
    ListedTasksUpTo(db, f, |db.tasks|)
  }

  /** The filters of the athletes page: event and session. */
  datatype BookingFilter = BookingFilter(eventId: Option<int>, sessionId: Option<int>)

  /**
   * The booking survives the inner joins of the athletes listing (its athlete,
   * its session and the session's event exist) and meets every filter supplied.
   */
  predicate BookingListed(db: Db, f: BookingFilter, id: int)
    requires HasId(db.bookings, id)
  {
    var b := Row(db.bookings, id);
    && HasId(db.athletes, b.athleteId)
    && HasId(db.sessions, b.sessionId)
    && HasId(db.events, Row(db.sessions, b.sessionId).eventId)
    && (Supplied(f.eventId) ==> Row(db.sessions, b.sessionId).eventId == f.eventId.value)
    && (Supplied(f.sessionId) ==> b.sessionId == f.sessionId.value)
  }

  /** The ids among the first `n` bookings that the athletes page lists, lowest first. */
  function ListedBookingsUpTo(db: Db, f: BookingFilter, n: nat): (ids: seq<int>)
    requires n <= |db.bookings|
    ensures forall id :: id in ids <==> 1 <= id <= n && BookingListed(db, f, id)
    ensures forall i :: 0 <= i < |ids| ==> 1 <= ids[i] <= n
    ensures Increasing(ids)
  {
    if n == 0 then []
    else
      var prefix := ListedBookingsUpTo(db, f, n - 1);
      if BookingListed(db, f, n) then prefix + [n] else prefix
  }

  /** The bookings the athletes page lists (app.py 401-407). */
  function ListedBookings(db: Db, f: BookingFilter): (ids: seq<int>)
    ensures forall id :: id in ids <==> HasId(db.bookings, id) && BookingListed(db, f, id)
    ensures Increasing(ids)
  {
    ListedBookingsUpTo(db, f, |db.bookings|)
  }

  // ---------------------------------------------------------------- look-ups

  predicate IsAthlete(a: Athlete, name: string, team: string) {
    a.name == name && a.team == team
  }

  /** `Athlete.query.filter_by(name=name, team=team).first()`: the lowest id with that name and team. */
  function FindAthlete(athletes: seq<Athlete>, name: string, team: string): (r: Option<int>)
    ensures r.Some? ==> HasId(athletes, r.value) && IsAthlete(Row(athletes, r.value), name, team)
    ensures r.Some? ==> forall k :: 0 <= k < r.value - 1 ==> !IsAthlete(athletes[k], name, team)
    ensures r.None? ==> forall k :: 0 <= k < |athletes| ==> !IsAthlete(athletes[k], name, team)
  {
    if athletes == [] then None
    else
      var init := athletes[..|athletes| - 1];
      assert forall k :: 0 <= k < |init| ==> init[k] == athletes[k];
      match FindAthlete(init, name, team)
      case Some(id) => Some(id)
      case None => if IsAthlete(athletes[|athletes| - 1], name, team) then Some(|athletes|) else None
  }

  /** Appending an athlete changes no earlier look-up result, and makes a missing pair found at the new id. */
  lemma FindAthleteAppend(athletes: seq<Athlete>, a: Athlete, name: string, team: string)
    ensures FindAthlete(athletes + [a], name, team)
            == if FindAthlete(athletes, name, team).Some? then FindAthlete(athletes, name, team)
               else if IsAthlete(a, name, team) then Some(|athletes| + 1)
               else None
  {
    assert (athletes + [a])[..|athletes|] == athletes;
  }

  /**
   * The get-or-create of a booking (app.py 367-378): the athlete table after
   * the form names the pair (a.name, a.team), and the id of that pair's
   * athlete. The table is left as it is when the pair exists, otherwise `a`
   * is appended; either way the id is the one `first()` now finds, and
   * distinct pairs stay distinct.
   */
  function EnsureAthlete(athletes: seq<Athlete>, a: Athlete): (r: (seq<Athlete>, int))
    ensures athletes <= r.0 && |r.0| <= |athletes| + 1
    ensures |r.0| == |athletes| + 1 <==> FindAthlete(athletes, a.name, a.team).None?
    ensures |r.0| == |athletes| + 1 ==> r.0[|athletes|] == a
    ensures HasId(r.0, r.1) && IsAthlete(Row(r.0, r.1), a.name, a.team)
    ensures FindAthlete(r.0, a.name, a.team) == Some(r.1)
    ensures AthletesDistinct(athletes) ==> AthletesDistinct(r.0)
  {
    FindAthleteAppend(athletes, a, a.name, a.team);
    match FindAthlete(athletes, a.name, a.team)
    case Some(id) => (athletes, id)
    case None => (athletes + [a], |athletes| + 1)
  }

  /**
   * Naming the same pair a second time finds the athlete the first time
   * created or found, and adds nothing (app.py 367-368).
   */
  lemma EnsureAthleteAgain(athletes: seq<Athlete>, a: Athlete, b: Athlete)
    requires a.name == b.name && a.team == b.team
    ensures EnsureAthlete(EnsureAthlete(athletes, a).0, b) == EnsureAthlete(athletes, a)
  {
  }

  /** `User.query.filter_by(email=email).first()`. */
  function FindUserByEmail(users: seq<User>, email: string): (r: Option<int>)
    ensures r.Some? ==> HasId(users, r.value) && Row(users, r.value).email == email
    ensures r.None? ==> forall k :: 0 <= k < |users| ==> users[k].email != email
  {
    if users == [] then None
    else
      var init := users[..|users| - 1];
      assert forall k :: 0 <= k < |init| ==> init[k] == users[k];
      match FindUserByEmail(init, email)
      case Some(id) => Some(id)
      case None => if users[|users| - 1].email == email then Some(|users|) else None
  }

  /**
   * Whether the unique `label` column of `sd_cards` already holds the label:
   * on a table whose labels are unique, exactly when one more card with that
   * label would break the uniqueness the column enforces.
   */
  predicate LabelTaken(cards: seq<SdCard>, text: string)
    ensures LabelsUnique(cards) ==>
              (LabelTaken(cards, text) <==> !LabelsUnique(cards + [SdCard(text, None, Available)]))
  {
    var card := SdCard(text, None, Available);
    assert (cards + [card])[|cards|] == card;
    assert forall k :: 0 <= k < |cards| ==> (cards + [card])[k] == cards[k];
    exists k | 0 <= k < |cards| :: cards[k].labelText == text
  }

  // ---------------------------------------------------------------- table invariants

  /** No two athletes share a (name, team) pair: booking reuses an athlete rather than adding a twin. */
  ghost predicate AthletesDistinct(athletes: seq<Athlete>) {
    forall i, j :: 0 <= i < j < |athletes| ==> !IsAthlete(athletes[j], athletes[i].name, athletes[i].team)
  }

  /** Every booking names an existing athlete. */
  ghost predicate BookingsHaveAthletes(bookings: seq<AthleteSession>, athletes: seq<Athlete>) {
    forall k :: 0 <= k < |bookings| ==> HasId(athletes, bookings[k].athleteId)
  }

  /** The `email` column is unique. */
  ghost predicate EmailsUnique(users: seq<User>) {
    forall i, j :: 0 <= i < j < |users| ==> users[i].email != users[j].email
  }

  /** Every stored e-mail is in the normal form `strip().lower()`. */
  ghost predicate EmailsNormal(users: seq<User>) {
    forall k :: 0 <= k < |users| ==> NormalizeEmail(users[k].email) == users[k].email
  }

  /** The `label` column of `sd_cards` is unique. */
  ghost predicate LabelsUnique(cards: seq<SdCard>) {
    forall i, j :: 0 <= i < j < |cards| ==> cards[i].labelText != cards[j].labelText
  }

  /**
   * With distinct (name, team) pairs, `first()` has only one row to choose:
   * the look-up finds every athlete by its own name and team.
   */
  lemma FindAthleteExact(athletes: seq<Athlete>, id: int)
    requires AthletesDistinct(athletes) && HasId(athletes, id)
    ensures FindAthlete(athletes, Row(athletes, id).name, Row(athletes, id).team) == Some(id)
  {
    var a := Row(athletes, id);
    var r := FindAthlete(athletes, a.name, a.team);
    assert IsAthlete(athletes[id - 1], a.name, a.team);
    if r.Some? && r.value != id {
      assert false;
    }
  }

  /** Adding a booking for an existing athlete, after the athlete table has only grown, keeps every booking's athlete. */
  lemma AddBookingKeepsAthletes(bookings: seq<AthleteSession>, athletes: seq<Athlete>, athletes': seq<Athlete>,
                                b: AthleteSession)
    requires BookingsHaveAthletes(bookings, athletes) && athletes <= athletes' && HasId(athletes', b.athleteId)
    ensures BookingsHaveAthletes(bookings + [b], athletes')
  {
  }

  /** Changing a card's status keeps the labels unique. */
  lemma RestatusKeepsLabels(cards: seq<SdCard>, id: int, status: CardStatus)
    requires LabelsUnique(cards) && HasId(cards, id)
    ensures LabelsUnique(SetRow(cards, id, Row(cards, id).(status := status)))
  {
    var cards' := SetRow(cards, id, Row(cards, id).(status := status));
    assert forall k :: 0 <= k < |cards| ==> cards'[k].labelText == cards[k].labelText;
  }

  /** A card whose label is not yet taken keeps the labels unique. */
  lemma AddCardKeepsLabels(cards: seq<SdCard>, card: SdCard)
    requires LabelsUnique(cards) && !LabelTaken(cards, card.labelText)
    ensures LabelsUnique(cards + [card])
  {
  }
}
