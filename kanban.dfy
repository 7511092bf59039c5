/**
 * The kanban board state of the Go backend (`KanbanDataFile`): columns hold
 * ordered lists of card ids, columns have titles, cards have text, and two
 * counters number the ids handed out next ("card-N", "col-N").
 */
module Kanban {
  import Decimal

  datatype KanbanData = KanbanData(
    columns: map<string, seq<string>>,
    columnTitles: map<string, string>,
    cards: map<string, string>,
    nextCardId: nat,
    nextColumnId: nat)

  function CardId(n: nat): string {
    "card-" + Decimal.Show(n)
  }

  function ColumnId(n: nat): string {
    "col-" + Decimal.Show(n)
  }

  lemma CardIdInjective(a: nat, b: nat)
    requires CardId(a) == CardId(b)
    ensures a == b
  {
    assert Decimal.Show(a) == CardId(a)[5..];
    assert Decimal.Show(b) == CardId(b)[5..];
    Decimal.ShowInjective(a, b);
  }

  lemma ColumnIdInjective(a: nat, b: nat)
    requires ColumnId(a) == ColumnId(b)
    ensures a == b
  {
    assert Decimal.Show(a) == ColumnId(a)[4..];
    assert Decimal.Show(b) == ColumnId(b)[4..];
    Decimal.ShowInjective(a, b);
  }

  /** A Go map lookup of a slice: a missing key reads as the empty slice. */
  function ColumnCards(d: KanbanData, columnId: string): seq<string> {
    if columnId in d.columns then d.columns[columnId] else []
  }

  /**
   * `SaveKanbanCard(content, columnId)`: the new board and the id returned.
   * The id is "card-N" for the current counter; it maps to the content and
   * is appended at the end of the column's list (an absent column starting
   * empty); the counter moves on by one; every other column, card and title
   * is untouched.
   */
  function AddCard(d: KanbanData, content: string, columnId: string): (r: (KanbanData, string))
    ensures var (d', id) := r;
      && id == CardId(d.nextCardId)
      && d'.nextCardId == d.nextCardId + 1 && d'.nextColumnId == d.nextColumnId
      && id in d'.cards && d'.cards[id] == content
      && d'.cards.Keys == d.cards.Keys + {id}
      && (forall k :: k in d.cards && k != id ==> d'.cards[k] == d.cards[k])
      && columnId in d'.columns
      && d'.columns[columnId] == ColumnCards(d, columnId) + [id]
      && d'.columns.Keys == d.columns.Keys + {columnId}
      && (forall c :: c in d.columns && c != columnId ==> d'.columns[c] == d.columns[c])
      && d'.columnTitles == d.columnTitles
  {
    var cardId := CardId(d.nextCardId);
    (d.(cards := d.cards[cardId := content],
        nextCardId := d.nextCardId + 1,
        columns := d.columns[columnId := ColumnCards(d, columnId) + [cardId]]),
     cardId)
  }

  /**
   * `SaveColumn(title)`: the new board and the id returned. The id is
   * "col-N" for the current counter; it gets the title and an empty card
   * list, and the counter moves on by one; other columns, titles and all
   * cards are untouched.
   */
  function AddColumn(d: KanbanData, title: string): (r: (KanbanData, string))
    ensures var (d', id) := r;
      && id == ColumnId(d.nextColumnId)
      && d'.nextColumnId == d.nextColumnId + 1 && d'.nextCardId == d.nextCardId
      && d'.columnTitles.Keys == d.columnTitles.Keys + {id} && d'.columnTitles[id] == title
      && d'.columns.Keys == d.columns.Keys + {id} && d'.columns[id] == []
      && (forall c :: c in d.columns && c != id ==> d'.columns[c] == d.columns[c])
      && (forall c :: c in d.columnTitles && c != id ==> d'.columnTitles[c] == d.columnTitles[c])
      && d'.cards == d.cards
  {
    var columnId := ColumnId(d.nextColumnId);
    (d.(columnTitles := d.columnTitles[columnId := title],
        columns := d.columns[columnId := []],
        nextColumnId := d.nextColumnId + 1),
     columnId)
  }

  /**
   * No id the counters will hand out is in use yet: no card, column or
   * title has a generated id at or above its counter, and no column lists
   * such a card.
   */
  ghost predicate Fresh(d: KanbanData) {
    && (forall n: nat :: n >= d.nextCardId ==> CardId(n) !in d.cards)
    && (forall n: nat, c :: n >= d.nextCardId && c in d.columns ==> CardId(n) !in d.columns[c])
    && (forall n: nat :: n >= d.nextColumnId ==> ColumnId(n) !in d.columns && ColumnId(n) !in d.columnTitles)
  }

  /**
   * On a fresh board `SaveKanbanCard` hands out an unused id, listed in
   * exactly one column afterwards; the board stays fresh when the card goes
   * to a column the board already knows (an unknown column id is created as
   * given, and may be one the column counter hands out later).
   */
  lemma AddCardKeepsFresh(d: KanbanData, content: string, columnId: string)
    requires Fresh(d)
    ensures var (d', id) := AddCard(d, content, columnId);
      && id !in d.cards
      && (forall c :: c in d.columns ==> id !in d.columns[c])
      && (forall c :: c in d'.columns ==> (id in d'.columns[c] <==> c == columnId))
      && (columnId in d.columns || columnId in d.columnTitles ==> Fresh(d'))
  {
    var (d', id) := AddCard(d, content, columnId);
    assert id == CardId(d.nextCardId);
    forall n: nat | n >= d'.nextCardId
      ensures CardId(n) !in d'.cards
      ensures forall c :: c in d'.columns ==> CardId(n) !in d'.columns[c]
    {
      if CardId(n) == id {
        CardIdInjective(n, d.nextCardId);
      }
      forall c | c in d'.columns ensures CardId(n) !in d'.columns[c] {
        if c == columnId {
          assert d'.columns[c] == ColumnCards(d, columnId) + [id];
        }
      }
    }
  }

  /** On a fresh board `SaveColumn` hands out an unused id and the board stays fresh. */
  lemma AddColumnKeepsFresh(d: KanbanData, title: string)
    requires Fresh(d)
    ensures var (d', id) := AddColumn(d, title);
      id !in d.columns && id !in d.columnTitles && Fresh(d')
  {
    var (d', id) := AddColumn(d, title);
    forall n: nat | n >= d'.nextColumnId
      ensures ColumnId(n) !in d'.columns && ColumnId(n) !in d'.columnTitles
    {
      assert n >= d.nextColumnId;
      if ColumnId(n) == id {
        ColumnIdInjective(n, d.nextColumnId);
      }
    }
  }

  const InitialColumns: map<string, seq<string>> := map["col-1" := [], "col-2" := [], "col-3" := []]
  const InitialTitles: map<string, string> := map["col-1" := "To-Do", "col-2" := "In Progress", "col-3" := "Done"]

  /**
   * The state `startup` writes when no board file exists, with both counters
   * at 1: the id the column counter hands out next is already a column.
   */
  function StartupAsWritten(): (d: KanbanData)
    ensures d.cards == map[] && d.columns.Keys == d.columnTitles.Keys == {ColumnId(1), ColumnId(2), ColumnId(3)}
    ensures ColumnId(d.nextColumnId) in d.columns && ColumnId(d.nextColumnId) in d.columnTitles
  {
    assert Decimal.Show(1) == "1" && Decimal.Show(2) == "2" && Decimal.Show(3) == "3";
    assert ColumnId(1) == "col-1" && ColumnId(2) == "col-2" && ColumnId(3) == "col-3";
    KanbanData(InitialColumns, InitialTitles, map[], 1, 1)
  }

  /**
   * With the column counter at 1 the first `SaveColumn` returns "col-1",
   * which the startup state already holds: the "To-Do" column loses its
   * title and its cards, which stay in `cards` but are listed nowhere.
   */
  lemma StartupAsWrittenOrphansCards()
    ensures var (d1, cardId) := AddCard(StartupAsWritten(), "task", "col-1");
      var (d2, columnId) := AddColumn(d1, "Backlog");
      && columnId == "col-1"
      && columnId in StartupAsWritten().columnTitles
      && d2.columnTitles["col-1"] == "Backlog"
      && cardId in d2.cards
      && (forall c :: c in d2.columns ==> cardId !in d2.columns[c])
      && !Fresh(StartupAsWritten())
  {
    var (d1, cardId) := AddCard(StartupAsWritten(), "task", "col-1");
    var (d2, columnId) := AddColumn(d1, "Backlog");
    assert Decimal.Show(1) == "1";
    assert ColumnId(1) == "col-1";
    assert cardId == "card-1";
    assert d2.columns["col-2"] == [] && d2.columns["col-3"] == [];
    assert d2.columns.Keys == {"col-1", "col-2", "col-3"};
  }

  /**
   * The startup state with the column counter past the three initial
   * columns: the next column id is not yet in use.
   */
  function Startup(): (d: KanbanData)
    ensures d.cards == map[] && d.columns.Keys == d.columnTitles.Keys == {ColumnId(1), ColumnId(2), ColumnId(3)}
    ensures ColumnId(d.nextColumnId) !in d.columns && ColumnId(d.nextColumnId) !in d.columnTitles
  {
    assert Decimal.Show(1) == "1" && Decimal.Show(2) == "2" && Decimal.Show(3) == "3" && Decimal.Show(4) == "4";
    assert ColumnId(1) == "col-1" && ColumnId(2) == "col-2" && ColumnId(3) == "col-3" && ColumnId(4) == "col-4";
    KanbanData(InitialColumns, InitialTitles, map[], 1, 4)
  }

  /** The corrected startup state is fresh, so no `SaveColumn` or `SaveKanbanCard` ever overwrites. */
  lemma StartupFresh()
    ensures Fresh(Startup())
  {
    var d := Startup();
    assert Decimal.Show(1) == "1" && Decimal.Show(2) == "2" && Decimal.Show(3) == "3";
    forall n: nat | n >= 4 ensures ColumnId(n) !in d.columns && ColumnId(n) !in d.columnTitles {
      if ColumnId(n) in d.columns {
        if ColumnId(n) == ColumnId(1) {
          ColumnIdInjective(n, 1);
        } else if ColumnId(n) == ColumnId(2) {
          ColumnIdInjective(n, 2);
        } else {
          ColumnIdInjective(n, 3);
        }
      }
    }
  }

  /** The backend's board, updated in place by the kanban operations. */
  class Board {
    var columns: map<string, seq<string>>
    var columnTitles: map<string, string>
    var cards: map<string, string>
    var nextCardId: nat
    var nextColumnId: nat

    function Data(): KanbanData
      reads this
    {
      KanbanData(columns, columnTitles, cards, nextCardId, nextColumnId)
    }

    /** The board `startup` initialises (with the corrected column counter). */
    constructor ()
      ensures Data() == Startup()
    {
      columns := InitialColumns;
      columnTitles := InitialTitles;
      cards := map[];
      nextCardId := 1;
      nextColumnId := 4;
    }

    /** The board `startup` writes when no board file exists, column counter at 1. */
    constructor AsWritten()
      ensures Data() == StartupAsWritten()
    {
      columns := InitialColumns;
      columnTitles := InitialTitles;
      cards := map[];
      nextCardId := 1;
      nextColumnId := 1;
    }

    /** A board read back from its file. */
    constructor Load(d: KanbanData)
      ensures Data() == d
    {
      columns := d.columns;
      columnTitles := d.columnTitles;
      cards := d.cards;
      nextCardId := d.nextCardId;
      nextColumnId := d.nextColumnId;
    }

    method SaveKanbanCard(content: string, columnId: string) returns (cardId: string)
      modifies this
      ensures (Data(), cardId) == AddCard(old(Data()), content, columnId)
      ensures old(Fresh(Data()) && (columnId in columns || columnId in columnTitles)) ==> Fresh(Data())
    {
      if Fresh(Data()) {
        AddCardKeepsFresh(Data(), content, columnId);
      }
      cardId := "card-" + Decimal.Show(nextCardId);
      cards := cards[cardId := content];
      nextCardId := nextCardId + 1;
      var list := if columnId in columns then columns[columnId] else [];
      columns := columns[columnId := list + [cardId]];
    }

    method SaveColumn(title: string) returns (columnId: string)
      modifies this
      ensures (Data(), columnId) == AddColumn(old(Data()), title)
      ensures old(Fresh(Data())) ==> Fresh(Data())
    {
      if Fresh(Data()) {
        AddColumnKeepsFresh(Data(), title);
      }
      columnId := "col-" + Decimal.Show(nextColumnId);
      columnTitles := columnTitles[columnId := title];
      columns := columns[columnId := []];
      nextColumnId := nextColumnId + 1;
    }

    /** Replaces cards, columns and titles wholesale; the counters are kept. */
    method SaveAllKanbanData(cards: map<string, string>, columns: map<string, seq<string>>, columnTitles: map<string, string>)
      modifies this
      ensures Data() == old(Data()).(cards := cards, columns := columns, columnTitles := columnTitles)
    {
      this.cards := cards;
      this.columns := columns;
      this.columnTitles := columnTitles;
    }
  }
}
