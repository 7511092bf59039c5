/**
 * The review screen of the front end: the due cards fetched once, a cursor
 * over them that moves forward only, and four grade buttons whose grades
 * feed the scheduler.
 */
module ReviewScreen {
  import opened Wrappers
  import Scheduler

  datatype Button = Fail | Hard | Fair | Easy

  /** The grade each button sends to `ReviewCard`. */
  function GradeOf(b: Button): (g: nat)
    ensures g <= 5 && g != 1 && g != 2
    ensures g < Scheduler.PassingGrade <==> b == Fail
  {
    match b
    case Fail => 0
    case Hard => 3
    case Fair => 4
    case Easy => 5
  }

  /**
   * What each button does to a card's easiness: Fail keeps it, Hard lowers
   * it by 0.14 down to at most the floor of 1.3, Fair keeps it and Easy
   * raises it by 0.1.
   */
  lemma ButtonEasiness(b: Button, s: Scheduler.Schedule, today: int)
    requires s.easiness >= Scheduler.MinEasiness
    ensures var e := Scheduler.Reviewed(s, GradeOf(b), today).easiness;
      match b
      case Fail => e == s.easiness
      case Hard => e == if s.easiness - 14 < Scheduler.MinEasiness then Scheduler.MinEasiness else s.easiness - 14
      case Fair => e == s.easiness
      case Easy => e == s.easiness + 10
  {
  }

  /**
   * The `ReviewCard` calls made when the buttons `presses` are pressed in
   * turn from cursor position `cursor`, each press paired with whether its
   * call succeeded; the buttons are gone once the cursor passes the queue.
   */
  function Session(queue: seq<nat>, cursor: nat, presses: seq<(Button, bool)>): (calls: seq<(nat, nat)>)
    ensures |calls| <= |presses|
    decreases |presses|
  {
    if presses == [] || cursor >= |queue| then []
    else
      var next := if presses[0].1 then cursor + 1 else cursor;
      [(queue[cursor], GradeOf(presses[0].0))] + Session(queue, next, presses[1..])
  }

  predicate AllSucceed(presses: seq<(Button, bool)>) {
    forall i :: 0 <= i < |presses| ==> presses[i].1
  }

  /**
   * When every call succeeds, the queue is reviewed card by card in order,
   * each card once, with the grade of the button pressed for it.
   */
  lemma {:induction false} SessionInOrder(queue: seq<nat>, cursor: nat, presses: seq<(Button, bool)>)
    requires cursor <= |queue| && AllSucceed(presses)
    decreases |presses|
    ensures var calls := Session(queue, cursor, presses);
      && |calls| == (if |presses| < |queue| - cursor then |presses| else |queue| - cursor)
      && forall i :: 0 <= i < |calls| ==> calls[i] == (queue[cursor + i], GradeOf(presses[i].0))
  {
    if presses != [] && cursor < |queue| {
      var rest := presses[1..];
      assert AllSucceed(rest) by {
        forall i | 0 <= i < |rest| ensures rest[i].1 {
          assert rest[i] == presses[i + 1];
        }
      }
      SessionInOrder(queue, cursor + 1, rest);
      var calls := Session(queue, cursor, presses);
      assert calls == [(queue[cursor], GradeOf(presses[0].0))] + Session(queue, cursor + 1, rest);
      forall i | 1 <= i < |calls|
        ensures calls[i] == (queue[cursor + i], GradeOf(presses[i].0))
      {
        assert calls[i] == Session(queue, cursor + 1, rest)[i - 1];
        assert presses[i] == rest[i - 1];
      }
    }
  }

  /** The review screen's state, set by the fetch on mount and by the grade buttons. */
  class ReviewQueue {
    var queue: seq<nat>
    var cursor: Option<nat>

    /** A card and the grade buttons are shown; otherwise "No Cards to Review". */
    predicate Showing()
      reads this
      ensures Showing() ==> cursor.Some? && Valid() && |queue| > 0
    {
      cursor.Some? && cursor.value < |queue|
    }

    /** The cursor never runs past the end of the queue. */
    predicate Valid()
      reads this
    {
      cursor.Some? ==> cursor.value <= |queue|
    }

    constructor ()
      ensures queue == [] && cursor == None && Valid() && !Showing()
    {
      queue := [];
      cursor := None;
    }

    /** The fetch run once on mount: the cursor starts at the first due card, if any. */
    method Load(cards: seq<nat>)
      requires cursor == None
      modifies this
      ensures queue == cards
      ensures cursor == if |cards| > 0 then Some(0) else None
      ensures Valid() && (Showing() <==> |cards| > 0)
    {
      queue := cards;
      if |cards| > 0 {
        cursor := Some(0);
      }
    }

    /**
     * A grade button: the current card's id is sent with the button's grade
     * and, if that call succeeds, the cursor moves on by one. Returns the call
     * made, if any (the buttons exist only while a card is shown).
     */
    method Press(b: Button, succeeded: bool) returns (call: Option<(nat, nat)>)
      requires Valid()
      modifies this
      ensures Valid() && queue == old(queue)
      ensures old(Showing()) ==>
        && call == Some((old(queue[cursor.value]), GradeOf(b)))
        && cursor == if succeeded then Some(old(cursor.value) + 1) else old(cursor)
      ensures !old(Showing()) ==> call == None && cursor == old(cursor)
      ensures old(cursor).Some? ==> cursor.Some? && old(cursor.value) <= cursor.value
    {
      call := None;
      if Showing() {
        var c := cursor.value;
        call := Some((queue[c], GradeOf(b)));
        if succeeded {
          cursor := Some(c + 1);
        }
      }
    }
  }
}
