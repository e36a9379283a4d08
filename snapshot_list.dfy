/**
 * Keyboard navigation of the snapshot list page. The page renders one
 * table row per snapshot header; the selected row is whichever row holds
 * the DOM focus. ArrowUp and ArrowDown move the focus with wrap-around,
 * ArrowRight and Enter open the selected snapshot.
 */
module SnapshotListPage {
  import opened Wrappers

  /** A snapshot header, reduced to the id the navigation uses. */
  datatype Header = Header(indexId: string)

  /** A DOM element, identified by an opaque number. */
  type Element = nat

  /** rows.findIndex(ref => ref === active), from position `from` on: -1 when no row is `active`. */
  function FindIndex(rows: seq<Element>, active: Element, from: nat): (r: int)
    requires from <= |rows|
    ensures r == -1 || from <= r < |rows|
    ensures r == -1 <==> active !in rows[from..]
    ensures r >= 0 ==> rows[r] == active && active !in rows[from..r]
    decreases |rows| - from
  {
    if from == |rows| then -1
    else if rows[from] == active then from
    else
      var r := FindIndex(rows, active, from + 1);
      assert rows[from..] == [rows[from]] + rows[from + 1..];
      assert r >= 0 ==> rows[from..r] == [rows[from]] + rows[from + 1..r];
      r
  }

  predicate Distinct(rows: seq<Element>)
  {
    forall i, j :: 0 <= i < j < |rows| ==> rows[i] != rows[j]
  }

  /** Where ArrowUp moves the cursor: nothing focused to the first row, the first row to the last, any other row to the one above. */
  function UpTarget(i: int, n: int): int
  {
    if i == -1 then 0 else if i == 0 then n - 1 else i - 1
  }

  /** Where ArrowDown moves the cursor: nothing focused and the last row to the first row, any other row to the one below. */
  function DownTarget(i: int, n: int): int
  {
    if i == -1 || i == n - 1 then 0 else i + 1
  }

  /** Where an arrow key sends the cursor; other keys leave it where it is. */
  function ArrowTarget(key: string, i: int, n: int): (r: int)
    ensures key == "ArrowDown" && -1 <= i < n && n > 0 ==> r == (i + 1) % n
    ensures key == "ArrowUp" && 0 <= i < n ==> r == (i - 1 + n) % n
    ensures key == "ArrowUp" && i == -1 ==> r == 0
    ensures key != "ArrowUp" && key != "ArrowDown" ==> r == i
  {
    SmallMod(i + 1, n);
    SmallMod(i - 1 + n, n);
    if key == "ArrowUp" then UpTarget(i, n)
    else if key == "ArrowDown" then DownTarget(i, n)
    else i
  }

  /** For 0 <= a <= n, a % n is a itself, or 0 when a == n. */
  lemma SmallMod(a: int, n: int)
    ensures 0 <= a <= n && n > 0 ==> a % n == if a == n then 0 else a
  {
  }

  class ListPage {
    /** The fetched snapshot list; None while the query is loading. */
    var data: Option<seq<Header>>
    /** rowRefs.current: the rendered row of each header. */
    var rows: seq<Element>
    /** document.activeElement. */
    var active: Element

    /** Once the list is loaded there is one distinct row per header. */
    ghost predicate Valid()
      reads this
    {
      data.Some? ==> |rows| == |data.value| && Distinct(rows)
    }

    constructor (data: Option<seq<Header>>, rows: seq<Element>, active: Element)
      requires data.Some? ==> |rows| == |data.value| && Distinct(rows)
      ensures Valid()
      ensures this.data == data && this.rows == rows && this.active == active
    {
      this.data := data;
      this.rows := rows;
      this.active := active;
    }

    /** getSelectedIndex: the index of the focused row, -1 when no row has the focus. */
    function SelectedIndex(): (r: int)
      reads this
      ensures -1 <= r < |rows|
      ensures r == -1 <==> active !in rows
      ensures r >= 0 ==> rows[r] == active && forall j :: 0 <= j < r ==> rows[j] != active
    {
      var r := FindIndex(rows, active, 0);
      assert rows[0..] == rows;
      assert r >= 0 ==> forall j :: 0 <= j < r ==> rows[j] in rows[0..r];
      r
    }

    /** rowRefs.current[i]?.focus(): focuses row `i` when it exists, does nothing otherwise. */
    method Focus(i: int)
      requires Valid()
      modifies this`active
      ensures Valid()
      ensures 0 <= i < |rows| ==> active == rows[i]
      ensures !(0 <= i < |rows|) ==> active == old(active)
    {
      if 0 <= i < |rows| {
        active := rows[i];
      }
    }

    /** The first keydown listener: ArrowUp and ArrowDown move the focus. */
    method OnArrowKey(key: string)
      requires Valid()
      modifies this`active
      ensures Valid()
      ensures data.None? ==> active == old(active)
      ensures data.Some? ==>
        var t := ArrowTarget(key, old(SelectedIndex()), |data.value|);
        SelectedIndex() == if 0 <= t < |rows| then t else old(SelectedIndex())
      ensures data.Some? && !(0 <= ArrowTarget(key, old(SelectedIndex()), |data.value|) < |rows|) ==>
        active == old(active)
    {
      if data.None? {
        return;
      }
      var selected := FindIndex(rows, active, 0);
      assert rows[0..] == rows;
      var n := |data.value|;
      if key == "ArrowUp" {
        if selected == -1 {
          Focus(0);
        } else if selected == 0 {
          Focus(n - 1);
        } else {
          Focus(selected - 1);
        }
      } else if key == "ArrowDown" {
        if selected == -1 || selected == n - 1 {
          Focus(0);
        } else {
          Focus(selected + 1);
        }
      }
      var t := ArrowTarget(key, selected, n);
      if 0 <= t < |rows| {
        FocusedRowIsSelected(rows, t);
      }
    }

    /** The second keydown listener: ArrowRight and Enter open the focused snapshot. */
    method OnEnterKey(key: string) returns (target: Option<string>)
      ensures data.None? || (key != "ArrowRight" && key != "Enter") ==> target == None
      ensures data.Some? && (key == "ArrowRight" || key == "Enter") ==>
        target == if 0 <= SelectedIndex() < |data.value|
                  then Some("/snapshots/" + data.value[SelectedIndex()].indexId)
                  else None
    {
      if data.None? {
        return None;
      }
      if key == "ArrowRight" || key == "Enter" {
        var selected := FindIndex(rows, active, 0);
        assert rows[0..] == rows;
        if selected == -1 {
          return None;
        }
        if selected >= |data.value| {
          return None;
        }
        return Some("/snapshots/" + data.value[selected].indexId);
      }
      return None;
    }
  }

  /** Focusing row `t` of a list of distinct rows makes `t` the selected index. */
  lemma FocusedRowIsSelected(rows: seq<Element>, t: nat)
    requires Distinct(rows) && t < |rows|
    ensures FindIndex(rows, rows[t], 0) == t
  {
    assert rows[0..] == rows;
  }

  /** With at least one row, every arrow key leaves the cursor on a row. */
  lemma ArrowTargetInRange(key: string, i: int, n: int)
    requires n >= 1 && -1 <= i < n
    requires key == "ArrowUp" || key == "ArrowDown"
    ensures 0 <= ArrowTarget(key, i, n) < n
  {
  }

  /** ArrowDown then ArrowUp returns to the row it started from, across the wrap too. */
  lemma DownThenUp(i: int, n: int)
    requires 0 <= i < n
    ensures UpTarget(DownTarget(i, n), n) == i
  {
  }

  /** ArrowUp then ArrowDown returns to the row it started from. */
  lemma UpThenDown(i: int, n: int)
    requires 0 <= i < n
    ensures DownTarget(UpTarget(i, n), n) == i
  {
  }

  /** On the page object: ArrowDown then ArrowUp gives the focus back to the row that had it. */
  method DownThenUpRestoresFocus(page: ListPage)
    requires page.Valid() && page.data.Some? && page.SelectedIndex() >= 0
    modifies page
    ensures page.SelectedIndex() == old(page.SelectedIndex())
  {
    ghost var i := page.SelectedIndex();
    page.OnArrowKey("ArrowDown");
    ArrowTargetInRange("ArrowDown", i, |page.data.value|);
    page.OnArrowKey("ArrowUp");
    ArrowTargetInRange("ArrowUp", DownTarget(i, |page.data.value|), |page.data.value|);
    DownThenUp(i, |page.data.value|);
  }
}
