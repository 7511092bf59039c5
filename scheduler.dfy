/**
 * The SuperMemo-2 style flashcard scheduler of the Go backend.
 *
 * Easiness is held in integer hundredths (2.5 is 250, the floor 1.3 is 130):
 * every change the scheduler makes to it is a whole number of hundredths, so
 * the model is exact where the backend uses `float64`. Dates are day numbers;
 * the instant of a review or of a card's creation is passed in as `today`.
 */
module Scheduler {
  import opened Wrappers

  const DefaultEasiness: int := 250
  const MinEasiness: int := 130
  /** Grades below this are failed recalls. */
  const PassingGrade: nat := 3

  /** The four columns a review writes. */
  datatype Schedule = Schedule(repetitions: nat, easiness: int, interval: nat, reviewDate: int)

  /** A stored card: the row of the `flashcards` table. */
  datatype Record = Record(id: nat, front: string, back: string, sched: Schedule)

  /**
   * The schedule of a card created on day `today`: no repetitions, the
   * default easiness, and a review date one day before its creation.
   */
  function NewSchedule(today: int): (s: Schedule)
    ensures s.repetitions == 0 && s.interval == 0 && s.easiness == DefaultEasiness
    ensures s.reviewDate == today - 1
  {
    Schedule(0, DefaultEasiness, 0, today - 1)
  }

  /**
   * `0.1 - (5-q)*(0.08 + (5-q)*0.02)` in hundredths. The grade is unchecked,
   * so `5 - q` is negative for grades above 5. Within the scale no grade
   * raises easiness by more than 0.1, and a passing grade lowers it by at most
   * 0.14.
   */
  function EasinessDelta(grade: nat): (d: int)
    ensures grade <= 5 ==> d <= 10
    ensures PassingGrade <= grade <= 5 ==> -14 <= d
  {
    var k := 5 - grade;
    assert grade <= 5 ==> k * (8 + k * 2) >= 0;
    10 - k * (8 + k * 2)
  }

  /** `math.Round(x / 100)` for a non-negative `x`: the nearest whole number, halves rounded up. */
  function RoundHundredths(x: nat): (r: nat)
    ensures 100 * r - 50 <= x < 100 * r + 50
  {
    (x + 50) / 100
  }

  /**
   * The effect of `(*Flashcard).review` on the scheduling fields, reviewed on
   * day `today`. The card is next due `interval` days after the review; the
   * repetition count drops to 0 exactly on a failed recall, which also asks
   * for the card tomorrow and keeps easiness.
   */
  function Reviewed(s: Schedule, grade: nat, today: int): (r: Schedule)
    ensures r.reviewDate == today + r.interval
    ensures r.repetitions == 0 <==> grade < PassingGrade
    ensures grade < PassingGrade ==> r.interval == 1 && r.easiness == s.easiness
  {
    if grade < PassingGrade then
      Schedule(0, s.easiness, 1, today + 1)
    else
      var raised := s.easiness + EasinessDelta(grade);
      var easiness := if raised < MinEasiness then MinEasiness else raised;
      var repetitions := s.repetitions + 1;
      var interval :=
        if repetitions == 1 then 1
        else if repetitions == 2 then 6
        else RoundHundredths(s.interval * easiness);
      Schedule(repetitions, easiness, interval, today + interval)
  }

  /**
   * The schedules a card can be in: easiness at or above the floor, and an
   * interval that agrees with the repetition count (0 or 1 before any
   * success, 1 after the first, at least 6 from the second on).
   */
  predicate Reachable(s: Schedule) {
    && s.easiness >= MinEasiness
    && (s.repetitions == 0 ==> s.interval <= 1)
    && (s.repetitions == 1 ==> s.interval == 1)
    && (s.repetitions >= 2 ==> s.interval >= 6)
  }

  lemma NewScheduleReachable(today: int)
    ensures Reachable(NewSchedule(today))
  {
  }

  /**
   * A successful recall (any grade from 3 up, including grades above 5)
   * adds the delta to easiness and raises the result to the floor.
   */
  lemma SuccessEasiness(s: Schedule, grade: nat, today: int)
    requires grade >= PassingGrade
    ensures var e := Reviewed(s, grade, today).easiness;
      e >= MinEasiness && e >= s.easiness + EasinessDelta(grade)
      && (e == s.easiness + EasinessDelta(grade) || e == MinEasiness)
  {
  }

  /**
   * A successful recall counts one more repetition and sets the interval
   * from the new count: 1, then 6, then the previous interval times the
   * already updated easiness, rounded.
   */
  lemma SuccessInterval(s: Schedule, grade: nat, today: int)
    requires grade >= PassingGrade
    ensures var r := Reviewed(s, grade, today);
      && r.repetitions == s.repetitions + 1
      && (s.repetitions == 0 ==> r.interval == 1)
      && (s.repetitions == 1 ==> r.interval == 6)
      && (s.repetitions >= 2 ==> 100 * r.interval - 50 <= s.interval * r.easiness < 100 * r.interval + 50)
  {
  }

  /**
   * The grades the scale defines move easiness by -0.14, 0 and +0.1 for 3, 4
   * and 5. The grade is not checked: 6 to 8 raise easiness by more than a 5
   * does, 9 as much and 10 not at all, and every grade above 10 lowers it by
   * at least as much as a 3.
   */
  lemma EasinessDeltaByGrade(grade: nat)
    ensures EasinessDelta(3) == -14 && EasinessDelta(4) == 0 && EasinessDelta(5) == 10
    ensures 5 < grade < 9 ==> EasinessDelta(grade) > 10
    ensures EasinessDelta(9) == 10 && EasinessDelta(10) == 0
    ensures grade > 10 ==> EasinessDelta(grade) <= -14
  {
    if 5 < grade < 9 {
      assert grade == 6 || grade == 7 || grade == 8;
    } else if grade > 10 {
      var k := grade - 5;
      assert EasinessDelta(grade) == 10 - 2 * (k * (k - 4));
      assert k * (k - 4) >= 6 * (k - 4) by {
        assert (k - 6) * (k - 4) >= 0;
      }
    }
  }

  /** Multiplying by an easiness of at least 1.3 and rounding never shortens an interval. */
  lemma RoundedGrowth(interval: nat, easiness: int)
    requires easiness >= MinEasiness
    ensures RoundHundredths(interval * easiness) >= interval
  {
    assert interval * easiness >= interval * MinEasiness by {
      assert interval * (easiness - MinEasiness) >= 0;
    }
  }

  /**
   * Reviews keep a card reachable; afterwards easiness is at least 1.3 and
   * the interval is at least one day, and a successful recall never shortens
   * the interval.
   */
  lemma ReviewKeepsReachable(s: Schedule, grade: nat, today: int)
    requires Reachable(s)
    ensures var r := Reviewed(s, grade, today);
      && Reachable(r)
      && r.easiness >= MinEasiness
      && r.interval >= 1
      && (grade >= PassingGrade ==> r.interval >= s.interval)
  {
    if grade >= PassingGrade && s.repetitions >= 2 {
      RoundedGrowth(s.interval, Reviewed(s, grade, today).easiness);
    }
  }

  /**
   * The schedules a card goes through when it is reviewed with `grades` in
   * turn, each review taking place on the day the previous one made it due.
   */
  function Replay(s: Schedule, grades: seq<nat>, today: int): (h: seq<Schedule>)
    ensures |h| == |grades|
    decreases |grades|
  {
    if grades == [] then []
    else
      var next := Reviewed(s, grades[0], today);
      [next] + Replay(next, grades[1..], next.reviewDate)
  }

  predicate AllPassing(grades: seq<nat>) {
    forall i :: 0 <= i < |grades| ==> grades[i] >= PassingGrade
  }

  /**
   * Along any history every schedule is reachable and the review dates
   * strictly increase; along a run of successful recalls the intervals never
   * decrease.
   */
  lemma {:induction false} ReplayGrowth(s: Schedule, grades: seq<nat>, today: int)
    requires Reachable(s)
    decreases |grades|
    ensures var h := Replay(s, grades, today);
      && (forall i :: 0 <= i < |h| ==> Reachable(h[i]))
      && (|h| > 0 ==> h[0].reviewDate > today)
      && (forall i :: 0 < i < |h| ==> h[i - 1].reviewDate < h[i].reviewDate)
      && (AllPassing(grades) && |h| > 0 ==> h[0].interval >= s.interval)
      && (AllPassing(grades) ==> forall i :: 0 < i < |h| ==> h[i - 1].interval <= h[i].interval)
  {
    if grades != [] {
      var next := Reviewed(s, grades[0], today);
      ReviewKeepsReachable(s, grades[0], today);
      ReplayGrowth(next, grades[1..], next.reviewDate);
      var h := Replay(s, grades, today);
      var tail := Replay(next, grades[1..], next.reviewDate);
      assert h == [next] + tail;
      assert AllPassing(grades) ==> AllPassing(grades[1..]) by {
        if AllPassing(grades) {
          forall i | 0 <= i < |grades[1..]| ensures grades[1..][i] >= PassingGrade {
            assert grades[1..][i] == grades[i + 1];
          }
        }
      }
    }
  }

  /**
   * A fresh card reviewed "perfect" three times on its due days: intervals 1,
   * 6 and round(6 * 2.8) = 17, easiness 2.6, 2.7 and 2.8; a failure then
   * resets repetitions and interval but keeps easiness 2.8.
   */
  lemma FreshCardScenario()
    ensures Replay(NewSchedule(0), [5, 5, 5, 2], 0) ==
      [ Schedule(1, 260, 1, 1),
        Schedule(2, 270, 6, 7),
        Schedule(3, 280, 17, 24),
        Schedule(0, 280, 1, 25) ]
  {
  }

  /**
   * Two perfect recalls and then a failure on day 7: the failure resets the
   * card to be due the next day with interval 1, and easiness stays 2.7.
   */
  lemma FailAfterTwoRecallsScenario()
    ensures Replay(NewSchedule(0), [5, 5, 2], 0) ==
      [ Schedule(1, 260, 1, 1),
        Schedule(2, 270, 6, 7),
        Schedule(0, 270, 1, 8) ]
  {
  }

  /**
   * The in-memory card of the backend. `review` updates its scheduling fields
   * in place; identity and content are never touched by it.
   */
  class Flashcard {
    var id: nat
    var front: string
    var back: string
    var repetitions: nat
    var easiness: int
    var interval: nat
    var reviewDate: int

    function Scheduling(): Schedule
      reads this
    {
      Schedule(repetitions, easiness, interval, reviewDate)
    }

    function Snapshot(): Record
      reads this
    {
      Record(id, front, back, Scheduling())
    }

    /** `NewFlashcard`: a card not yet saved (id 0), its review date one day before its creation. */
    constructor New(front: string, back: string, today: int)
      ensures id == 0 && this.front == front && this.back == back
      ensures Scheduling() == NewSchedule(today)
    {
      id := 0;
      this.front := front;
      this.back := back;
      repetitions := 0;
      easiness := DefaultEasiness;
      interval := 0;
      reviewDate := today - 1;
    }

    /** The card scanned from a stored row. */
    constructor Load(r: Record)
      ensures Snapshot() == r
    {
      id := r.id;
      front := r.front;
      back := r.back;
      repetitions := r.sched.repetitions;
      easiness := r.sched.easiness;
      interval := r.sched.interval;
      reviewDate := r.sched.reviewDate;
    }

    /** `(*Flashcard).review(difficulty)` at day `today`. */
    method Review(difficulty: nat, today: int)
      modifies this
      ensures Scheduling() == Reviewed(old(Scheduling()), difficulty, today)
      ensures id == old(id) && front == old(front) && back == old(back)
    {
      if difficulty < PassingGrade {
        repetitions := 0;
        interval := 1;
      } else {
        easiness := easiness + EasinessDelta(difficulty);
        if easiness < MinEasiness {
          easiness := MinEasiness;
        }
        repetitions := repetitions + 1;
        if repetitions == 1 {
          interval := 1;
        } else if repetitions == 2 {
          interval := 6;
        } else {
          interval := RoundHundredths(interval * easiness);
        }
      }
      reviewDate := today + interval;
    }
  }

  /**
   * `ReviewCard(cardID, difficulty)` against the table `rows` (keyed by id):
   * a missing id is an error and changes nothing; otherwise the card is
   * loaded, reviewed and its four scheduling columns written back.
   */
  method ReviewCard(rows: map<nat, Record>, cardId: nat, difficulty: nat, today: int)
    returns (card: Option<Record>, updated: map<nat, Record>)
    ensures cardId !in rows ==> card == None && updated == rows
    ensures cardId in rows ==>
      var row := rows[cardId];
      && card == Some(Record(row.id, row.front, row.back, Reviewed(row.sched, difficulty, today)))
      && updated.Keys == rows.Keys
      && updated[cardId] == card.value
      && (forall k :: k in rows && k != cardId ==> updated[k] == rows[k])
  {
    if cardId !in rows {
      return None, rows;
    }
    var c := new Flashcard.Load(rows[cardId]);
    c.Review(difficulty, today);
    card := Some(c.Snapshot());
    updated := rows[cardId := c.Snapshot()];
  }
}
