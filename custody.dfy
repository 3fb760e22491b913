/**
 * SD-card custody: the card table and the checkout log, and the invariant
 * that ties them together. A card is out exactly when one of its log rows is
 * still open, so the dashboard's "SD cards in use" (app.py line 254) is the
 * number of open log rows.
 */
module Custody {
  import opened Wrappers
  import opened Schema

  predicate IsOpen(l: SdCardLog) {
    l.returnedAt.None?
  }

  /** The number of open log rows of the card with id `cardId`. */
  function OpenCount(logs: seq<SdCardLog>, cardId: int): nat {
    if logs == [] then 0
    else
      var last := logs[|logs| - 1];
      OpenCount(logs[..|logs| - 1], cardId) + (if last.cardId == cardId && IsOpen(last) then 1 else 0)
  }

  /** The number of open log rows: `SdCardLog.query.filter(returned_at is None)`. */
  function OpenTotal(logs: seq<SdCardLog>): nat {
    if logs == [] then 0
    else OpenTotal(logs[..|logs| - 1]) + (if IsOpen(logs[|logs| - 1]) then 1 else 0)
  }

  /**
   * `SdCard.query.filter_by(status="checked_out").count()`: the dashboard's
   * `sd_in_use`, never more than the number of cards.
   */
  function CheckedOutCount(cards: seq<SdCard>): (n: nat)
    ensures n <= |cards|
  {
    if cards == [] then 0
    else CheckedOutCount(cards[..|cards| - 1]) + (if cards[|cards| - 1].status == CheckedOut then 1 else 0)
  }

  /** How many open log rows a card in the given status has. */
  function OpenLogsFor(status: CardStatus): nat {
    if status == CheckedOut then 1 else 0
  }

  /**
   * The custody invariant: every log row names an existing card, a checked-out
   * card has exactly one open log row, and any other card has none.
   */
  ghost predicate CustodyInvariant(cards: seq<SdCard>, logs: seq<SdCardLog>) {
    && (forall k :: 0 <= k < |logs| ==> HasId(cards, logs[k].cardId))
    && (forall id :: HasId(cards, id) ==> OpenCount(logs, id) == OpenLogsFor(Row(cards, id).status))
  }

  /** Under the invariant, a card is checked out if and only if exactly one of its log rows is open. */
  lemma CheckedOutIffOneOpenLog(cards: seq<SdCard>, logs: seq<SdCardLog>, id: int)
    requires CustodyInvariant(cards, logs) && HasId(cards, id)
    ensures Row(cards, id).status == CheckedOut <==> OpenCount(logs, id) == 1
    ensures OpenCount(logs, id) <= 1
  {
  }

  /** Appending a log row adds one to its card's open count when the row is open. */
  lemma OpenCountAppend(logs: seq<SdCardLog>, l: SdCardLog, cardId: int)
    ensures OpenCount(logs + [l], cardId) == OpenCount(logs, cardId) + (if l.cardId == cardId && IsOpen(l) then 1 else 0)
  {
    assert (logs + [l])[..|logs|] == logs;
  }

  /** A card that no log row names has no open log row. */
  lemma {:induction false} OpenCountUnnamed(logs: seq<SdCardLog>, cardId: int)
    requires forall k :: 0 <= k < |logs| ==> logs[k].cardId != cardId
    ensures OpenCount(logs, cardId) == 0
  {
    if logs != [] {
      OpenCountUnnamed(logs[..|logs| - 1], cardId);
    }
  }

  /** Closing an open log row takes one off its own card's open count and leaves every other card's alone. */
  lemma {:induction false} OpenCountClose(logs: seq<SdCardLog>, k: int, t: Timestamp, cardId: int)
    requires 0 <= k < |logs| && IsOpen(logs[k])
    ensures OpenCount(logs[k := logs[k].(returnedAt := Some(t))], cardId)
            + (if logs[k].cardId == cardId then 1 else 0) == OpenCount(logs, cardId)
  {
    var n := |logs|;
    var closed := logs[k := logs[k].(returnedAt := Some(t))];
    if k == n - 1 {
      assert closed[..n - 1] == logs[..n - 1];
    } else {
      assert closed[..n - 1] == logs[..n - 1][k := logs[k].(returnedAt := Some(t))];
      OpenCountClose(logs[..n - 1], k, t, cardId);
    }
  }

  /** The empty store satisfies the invariant. */
  lemma CustodyEmpty()
    ensures CustodyInvariant([], [])
  {
  }

  /** Adding an available card (app.py 279-282) keeps the invariant. */
  lemma AddCardKeepsCustody(cards: seq<SdCard>, logs: seq<SdCardLog>, card: SdCard)
    requires CustodyInvariant(cards, logs) && card.status == Available
    ensures CustodyInvariant(cards + [card], logs)
  {
    OpenCountUnnamed(logs, |cards| + 1);
  }

  /**
   * A checkout (app.py 294-304) marks an available card checked out and opens
   * one log row for it; that keeps the invariant.
   */
  lemma CheckoutKeepsCustody(cards: seq<SdCard>, logs: seq<SdCardLog>, id: int, l: SdCardLog)
    requires CustodyInvariant(cards, logs) && HasId(cards, id) && Row(cards, id).status == Available
    requires l.cardId == id && IsOpen(l)
    ensures CustodyInvariant(SetRow(cards, id, Row(cards, id).(status := CheckedOut)), logs + [l])
  {
    var cards' := SetRow(cards, id, Row(cards, id).(status := CheckedOut));
    forall c | HasId(cards', c)
      ensures OpenCount(logs + [l], c) == OpenLogsFor(Row(cards', c).status)
    {
      OpenCountAppend(logs, l, c);
    }
  }

  /**
   * A return (app.py 312-316) closes an open log row and marks its card
   * available. The card was checked out before, and the invariant is kept.
   */
  lemma ReturnKeepsCustody(cards: seq<SdCard>, logs: seq<SdCardLog>, k: int, t: Timestamp)
    requires CustodyInvariant(cards, logs) && 0 <= k < |logs| && IsOpen(logs[k])
    ensures HasId(cards, logs[k].cardId) && Row(cards, logs[k].cardId).status == CheckedOut
    ensures CustodyInvariant(SetRow(cards, logs[k].cardId, Row(cards, logs[k].cardId).(status := Available)),
                    logs[k := logs[k].(returnedAt := Some(t))])
  {
    var c := logs[k].cardId;
    OpenCountClose(logs, k, t, c);
    var cards' := SetRow(cards, c, Row(cards, c).(status := Available));
    var logs' := logs[k := logs[k].(returnedAt := Some(t))];
    forall id | HasId(cards', id)
      ensures OpenCount(logs', id) == OpenLogsFor(Row(cards', id).status)
    {
      OpenCountClose(logs, k, t, id);
    }
  }

  /** The open counts of the cards with ids 1..n, summed. */
  function SumOpen(logs: seq<SdCardLog>, n: nat): nat {
    if n == 0 then 0 else SumOpen(logs, n - 1) + OpenCount(logs, n)
  }

  lemma {:induction false} SumOpenAppend(logs: seq<SdCardLog>, l: SdCardLog, n: nat)
    ensures SumOpen(logs + [l], n) == SumOpen(logs, n) + (if IsOpen(l) && 1 <= l.cardId <= n then 1 else 0)
  {
    if n > 0 {
      SumOpenAppend(logs, l, n - 1);
      OpenCountAppend(logs, l, n);
    }
  }

  lemma SumOpenNoLogs(n: nat)
    ensures SumOpen([], n) == 0
  {
  }

  lemma {:induction false} SumOpenIsTotal(logs: seq<SdCardLog>, n: nat)
    requires forall k :: 0 <= k < |logs| ==> 1 <= logs[k].cardId <= n
    ensures SumOpen(logs, n) == OpenTotal(logs)
  {
    if logs != [] {
      var init, last := logs[..|logs| - 1], logs[|logs| - 1];
      assert logs == init + [last];
      assert 1 <= logs[|logs| - 1].cardId <= n;
      SumOpenIsTotal(init, n);
      SumOpenAppend(init, last, n);
      assert OpenTotal(logs) == OpenTotal(init) + (if IsOpen(last) then 1 else 0);
    } else {
      SumOpenNoLogs(n);
    }
  }

  lemma {:induction false} SumOpenIsCheckedOut(cards: seq<SdCard>, logs: seq<SdCardLog>, n: nat)
    requires CustodyInvariant(cards, logs) && n <= |cards|
    ensures SumOpen(logs, n) == CheckedOutCount(cards[..n])
  {
    if n > 0 {
      SumOpenIsCheckedOut(cards, logs, n - 1);
      assert cards[..n][..n - 1] == cards[..n - 1];
      assert HasId(cards, n);
    }
  }

  /** Under the invariant, the dashboard's `sd_in_use` equals the number of open log rows. */
  lemma InUseEqualsOpenLogs(cards: seq<SdCard>, logs: seq<SdCardLog>)
    requires CustodyInvariant(cards, logs)
    ensures CheckedOutCount(cards) == OpenTotal(logs)
  {
    SumOpenIsCheckedOut(cards, logs, |cards|);
    assert cards[..|cards|] == cards;
    SumOpenIsTotal(logs, |cards|);
  }
}
