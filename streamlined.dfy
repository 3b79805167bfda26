/** The streamlined table, `_create_streamlined_data`
    (backend/processors/sentiment_processor.py): the five base columns of
    every row plus one column per vocabulary name, filled slot column by
    slot column so that the last matching slot of a row wins. */
module Streamlined {
  import opened Payload
  import opened Aggregation

  /** The base columns `speaker_id, start_time, end_time, text, quintile`. */
  datatype BaseRow = BaseRow(speaker: string, start: real, end: real, text: string, quintile: int)

  /** The column added for one vocabulary name: one cell per row. */
  datatype Column = Column(name: Name, cells: seq<real>)

  datatype Table = Table(base: seq<BaseRow>, columns: seq<Column>)

  function BaseOf(r: Row): BaseRow
  {
    BaseRow(r.seg.speaker, r.seg.start, r.seg.end, r.seg.text, r.quintile)
  }

  /** The cell of `name` for one row once the slot columns have been
      scanned in order: each matching slot overwrites the cell, which
      starts at 0.0. */
  function LastMatch(slots: seq<Slot>, name: Name): real
    decreases |slots|
  {
    if slots == [] then 0.0
    else if slots[|slots| - 1].name == name then slots[|slots| - 1].score
    else LastMatch(slots[..|slots| - 1], name)
  }

  /** The cell is 0.0 when no slot carries the name, and otherwise the
      score of the last slot that does, not the largest such score. */
  lemma LastMatchIsLastSlot(slots: seq<Slot>, name: Name)
    ensures (forall k :: 0 <= k < |slots| ==> slots[k].name != name) ==> LastMatch(slots, name) == 0.0
    ensures forall k ::
              0 <= k < |slots| && slots[k].name == name && (forall j :: k < j < |slots| ==> slots[j].name != name)
              ==> LastMatch(slots, name) == slots[k].score
  {
    if forall k :: 0 <= k < |slots| ==> slots[k].name != name {
      LastMatchNone(slots, name);
    }
    forall k | 0 <= k < |slots| && slots[k].name == name && (forall j :: k < j < |slots| ==> slots[j].name != name)
      ensures LastMatch(slots, name) == slots[k].score
    {
      LastMatchAt(slots, name, k);
    }
  }

  lemma {:induction false} LastMatchNone(slots: seq<Slot>, name: Name)
    requires forall k :: 0 <= k < |slots| ==> slots[k].name != name
    ensures LastMatch(slots, name) == 0.0
    decreases |slots|
  {
    if slots != [] {
      var init := slots[..|slots| - 1];
      assert forall k :: 0 <= k < |init| ==> init[k] == slots[k];
      LastMatchNone(init, name);
    }
  }

  lemma {:induction false} LastMatchAt(slots: seq<Slot>, name: Name, k: nat)
    requires k < |slots| && slots[k].name == name
    requires forall j :: k < j < |slots| ==> slots[j].name != name
    ensures LastMatch(slots, name) == slots[k].score
    decreases |slots|
  {
    if k < |slots| - 1 {
      var init := slots[..|slots| - 1];
      assert slots[|slots| - 1].name != name;
      assert init[k] == slots[k];
      assert forall j :: k < j < |init| ==> init[j] == slots[j];
      LastMatchAt(init, name, k);
    }
  }

  /** A duplicated name keeps the later, lower-ranked score: with slots
      sorted by score, the last match scores no more than any earlier
      match. */
  lemma LastMatchOfDuplicate(slots: seq<Slot>, name: Name, i: nat, k: nat)
    requires i < k < |slots|
    requires slots[i].name == name && slots[k].name == name
    requires forall j :: k < j < |slots| ==> slots[j].name != name
    requires slots[k].score < slots[i].score
    ensures LastMatch(slots, name) == slots[k].score < slots[i].score
  {
    LastMatchIsLastSlot(slots, name);
  }

  /** The cells of one vocabulary column. */
  function ColumnCells(rows: seq<Row>, name: Name): (cells: seq<real>)
    ensures |cells| == |rows|
    ensures forall r :: 0 <= r < |rows| ==> cells[r] == LastMatch(rows[r].seg.slots, name)
  {
    if rows == [] then [] else [LastMatch(rows[0].seg.slots, name)] + ColumnCells(rows[1..], name)
  }

  function BaseRows(rows: seq<Row>): (b: seq<BaseRow>)
    ensures |b| == |rows|
    ensures forall r :: 0 <= r < |rows| ==> b[r] == BaseOf(rows[r])
  {
    if rows == [] then [] else [BaseOf(rows[0])] + BaseRows(rows[1..])
  }

  function Columns(rows: seq<Row>, top: seq<Name>): (cs: seq<Column>)
    ensures |cs| == |top|
    ensures forall c :: 0 <= c < |top| ==> cs[c] == Column(top[c], ColumnCells(rows, top[c]))
  {
    if top == [] then [] else [Column(top[0], ColumnCells(rows, top[0]))] + Columns(rows, top[1..])
  }

  /** The whole streamlined table. */
  function StreamlinedTable(rows: seq<Row>, top: seq<Name>): Table
  {
    Table(BaseRows(rows), Columns(rows, top))
  }

  /** The table has one base row per row and one column per vocabulary
      name, and a row none of whose slots carries the name keeps 0.0. */
  lemma StreamlinedCell(rows: seq<Row>, top: seq<Name>, c: nat, r: nat)
    requires c < |top| && r < |rows|
    ensures var t := StreamlinedTable(rows, top);
      && |t.base| == |rows| && |t.columns| == |top|
      && t.base[r] == BaseOf(rows[r])
      && t.columns[c].name == top[c]
      && |t.columns[c].cells| == |rows|
      && ((forall k :: 0 <= k < |rows[r].seg.slots| ==> rows[r].seg.slots[k].name != top[c]) ==> t.columns[c].cells[r] == 0.0)
  {
    LastMatchIsLastSlot(rows[r].seg.slots, top[c]);
  }

  /** The prefix of a row's slots the column fill has reached after `i`
      slot columns. */
  function Scanned(slots: seq<Slot>, i: nat): seq<Slot>
  {
    if i < |slots| then slots[..i] else slots
  }

  lemma ScannedStep(slots: seq<Slot>, i: nat, name: Name)
    ensures LastMatch(Scanned(slots, i + 1), name)
         == if i < |slots| && slots[i].name == name then slots[i].score else LastMatch(Scanned(slots, i), name)
  {
    if i < |slots| {
      var prefix := Scanned(slots, i + 1);
      assert prefix[..|prefix| - 1] == Scanned(slots, i);
    }
  }

  /** The fill of one vocabulary column: it starts at 0.0 and, for each
      slot column in order, overwrites the cells of the rows whose slot
      there carries the name. */
  method FillColumn(rows: seq<Row>, name: Name) returns (cells: seq<real>)
    requires RowsFit(rows)
    ensures cells == ColumnCells(rows, name)
  {
    cells := seq(|rows|, r => 0.0);
    for i := 0 to MaxSlots
      invariant |cells| == |rows|
      invariant forall r :: 0 <= r < |rows| ==> cells[r] == LastMatch(Scanned(rows[r].seg.slots, i), name)
    {
      cells := FillSlotColumn(rows, name, i, cells);
    }
    forall r | 0 <= r < |rows|
      ensures cells[r] == LastMatch(rows[r].seg.slots, name)
    {
      assert |rows[r].seg.slots| <= MaxSlots;
    }
  }

  /** One pass of the fill over slot column `i`: every row whose slot `i`
      carries the name takes that slot's score, the others keep their cell. */
  method FillSlotColumn(rows: seq<Row>, name: Name, i: nat, cells: seq<real>) returns (next: seq<real>)
    requires |cells| == |rows|
    requires forall r :: 0 <= r < |rows| ==> cells[r] == LastMatch(Scanned(rows[r].seg.slots, i), name)
    ensures |next| == |rows|
    ensures forall r :: 0 <= r < |rows| ==> next[r] == LastMatch(Scanned(rows[r].seg.slots, i + 1), name)
  {
    next := cells;
    for r := 0 to |rows|
      invariant |next| == |rows|
      invariant forall r' :: 0 <= r' < r ==> next[r'] == LastMatch(Scanned(rows[r'].seg.slots, i + 1), name)
      invariant forall r' :: r <= r' < |rows| ==> next[r'] == cells[r']
    {
      ScannedStep(rows[r].seg.slots, i, name);
      var slots := rows[r].seg.slots;
      if i < |slots| && slots[i].name == name {
        next := next[r := slots[i].score];
      }
    }
  }
}
