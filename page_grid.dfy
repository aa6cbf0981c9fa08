/**
 * The integer part of laying tickets out on PDF pages, shared by
 * lib/PdfGenerator.ts and lib/MockTicketGenerator.ts: the list is cut into
 * pages of `cols × rows` tickets, and ticket `j` of a page goes to row
 * `floor(j / cols)`, column `j % cols`.
 */
module PageGrid {

  /** A ticket drawn at a cell of a page. */
  datatype Placed<T> = Placed(ticket: T, row: nat, col: nat)

  function Min(a: int, b: int): int { if a < b then a else b }

  /** `ceil(n / per)`: the number of pages `n` tickets take. */
  function PageCount(n: nat, per: nat): nat
    requires per > 0
  {
    (n + per - 1) / per
  }

  /** Page `k`: `tickets.slice(per·k, per·k + per)`, ticket `j` at row `j / cols`, column `j % cols`. */
  function Page<T>(tickets: seq<T>, cols: nat, rows: nat, k: nat): (page: seq<Placed<T>>)
    requires cols > 0 && rows > 0
    requires (cols * rows) * k <= |tickets|
    ensures |page| == Min(cols * rows, |tickets| - (cols * rows) * k)
  {
    var per := cols * rows;
    var start := per * k;
    var slice := tickets[start..Min(start + per, |tickets|)];
    seq(|slice|, j requires 0 <= j < |slice| => Placed(slice[j], j / cols, j % cols))
  }

  /** `a / per == p` when `a` lies in `[per·p, per·p + per)`. */
  lemma DivBetween(a: int, per: int, p: int)
    requires per > 0 && per * p <= a < per * p + per
    ensures a / per == p && a % per == a - per * p
  {
    var q, r := a / per, a % per;
    assert a == per * q + r;
    if q > p {
      MulMonotone(per, p + 1, q);
    } else if q < p {
      MulMonotone(per, q + 1, p);
    }
  }

  lemma MulMonotone(per: int, a: int, b: int)
    requires per > 0 && a <= b
    ensures per * a <= per * b
  {
    assert per * b == per * a + per * (b - a);
  }

  /** The cell loop of one page: ticket `j` of the page goes to row `j / cols`, column `j % cols`. */
  method PlacePage<T>(pageTickets: seq<T>, cols: nat) returns (page: seq<Placed<T>>)
    requires cols > 0
    ensures |page| == |pageTickets|
    ensures forall m :: 0 <= m < |page| ==> page[m] == Placed(pageTickets[m], m / cols, m % cols)
  {
    page := [];
    for j := 0 to |pageTickets|
      invariant |page| == j
      invariant forall m :: 0 <= m < j ==> page[m] == Placed(pageTickets[m], m / cols, m % cols)
    {
      var col := j % cols;
      var row := j / cols;
      page := page + [Placed(pageTickets[j], row, col)];
    }
  }

  /** The page loop of the generators: one page per `per` tickets, each filled cell by cell. */
  method LayOutPages<T>(tickets: seq<T>, cols: nat, rows: nat) returns (pages: seq<seq<Placed<T>>>)
    requires cols > 0 && rows > 0
    ensures |pages| == PageCount(|tickets|, cols * rows)
    ensures forall k :: 0 <= k < |pages| ==>
      (cols * rows) * k < |tickets| && pages[k] == Page(tickets, cols, rows, k)
  {
    var per := cols * rows;
    pages := [];
    var i := 0;
    while i < |tickets|
      invariant i == per * |pages|
      invariant |pages| == 0 || i - per < |tickets|
      invariant forall k :: 0 <= k < |pages| ==> per * k < |tickets| && pages[k] == Page(tickets, cols, rows, k)
      decreases |tickets| - i
    {
      var page := PlacePage(tickets[i..Min(i + per, |tickets|)], cols);
      assert page == Page(tickets, cols, rows, |pages|);
      NextPageStart(per, |pages|);
      pages := pages + [page];
      i := i + per;
    }
    DivBetween(|tickets| + per - 1, per, |pages|);
  }

  lemma NextPageStart(per: nat, n: nat)
    ensures per * (n + 1) == per * n + per
  {
  }

  /** A slot index within a page maps into the grid. */
  lemma CellInGrid(j: nat, cols: nat, rows: nat)
    requires cols > 0 && rows > 0 && j < cols * rows
    ensures j / cols < rows && j % cols < cols
  {
    if j / cols >= rows {
      MulMonotone(cols, rows, j / cols);
    }
  }

  /** Different slots of a page get different cells. */
  lemma CellsDistinct(j1: nat, j2: nat, cols: nat)
    requires cols > 0 && j1 != j2
    ensures (j1 / cols, j1 % cols) != (j2 / cols, j2 % cols)
  {
    assert j1 == cols * (j1 / cols) + j1 % cols;
    assert j2 == cols * (j2 / cols) + j2 % cols;
  }

  /** Every ticket has a slot: ticket `t` is slot `t % per` of page `t / per`. */
  lemma {:induction false} EveryTicketPlaced<T>(tickets: seq<T>, cols: nat, rows: nat, per: nat, t: nat)
    requires cols > 0 && rows > 0 && per == cols * rows && t < |tickets|
    ensures t / per < PageCount(|tickets|, per) && per * (t / per) <= |tickets|
    ensures t % per < |Page(tickets, cols, rows, t / per)|
    ensures Page(tickets, cols, rows, t / per)[t % per] == Placed(tickets[t], (t % per) / cols, (t % per) % cols)
  {
    var k, j := t / per, t % per;
    DivBetween(t, per, k);
    PageBeforeEnd(|tickets|, per, k);
  }

  /** A page that starts before the end of the list is one of the pages. */
  lemma PageBeforeEnd(n: nat, per: nat, k: nat)
    requires per > 0 && per * k < n
    ensures k < PageCount(n, per)
  {
    var p := PageCount(n, per);
    if k >= p {
      var r := (n + per - 1) % per;
      assert n + per - 1 == per * p + r;
      MulMonotone(per, p, k);
    }
  }

  /** No two slots hold the same ticket: slot `j` of page `k` holds ticket `per·k + j`. */
  lemma SlotsDistinct(per: nat, k1: nat, j1: nat, k2: nat, j2: nat)
    requires j1 < per && j2 < per && (k1, j1) != (k2, j2)
    ensures per * k1 + j1 != per * k2 + j2
  {
    if per * k1 + j1 == per * k2 + j2 {
      DivBetween(per * k1 + j1, per, k1);
      DivBetween(per * k2 + j2, per, k2);
    }
  }

  /** Each placed ticket lands on a cell of the grid, and cells on a page are not shared. */
  lemma {:induction false} PageCellsValid<T>(tickets: seq<T>, cols: nat, rows: nat, k: nat)
    requires cols > 0 && rows > 0 && (cols * rows) * k <= |tickets|
    ensures forall j :: 0 <= j < |Page(tickets, cols, rows, k)| ==>
      Page(tickets, cols, rows, k)[j].row < rows && Page(tickets, cols, rows, k)[j].col < cols
    ensures forall j1, j2 :: 0 <= j1 < j2 < |Page(tickets, cols, rows, k)| ==>
      var a, b := Page(tickets, cols, rows, k)[j1], Page(tickets, cols, rows, k)[j2];
      (a.row, a.col) != (b.row, b.col)
  {
    var page := Page(tickets, cols, rows, k);
    forall j | 0 <= j < |page| ensures page[j].row < rows && page[j].col < cols {
      CellInGrid(j, cols, rows);
    }
    forall j1, j2 | 0 <= j1 < j2 < |page| ensures (page[j1].row, page[j1].col) != (page[j2].row, page[j2].col) {
      CellsDistinct(j1, j2, cols);
    }
  }
}
