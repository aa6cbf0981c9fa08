/**
 * The page and cell arithmetic of `generateTicketsPDF` (lib/PdfGenerator.ts):
 * 9 columns by 5 rows, 45 tickets per page. Drawing is not modelled; the
 * result is the list of pages with the cell each ticket is drawn in.
 */
module PdfGenerator {
  import opened PageGrid

  /** `Ticket` as this file declares it. */
  datatype Ticket = Ticket(ticketKey: string, ticketId: int)

  const Cols: nat := 9
  const Rows: nat := 5
  const TicketsPerPage: nat := Cols * Rows

  /** `generateTicketsPDF`, integer part: which ticket goes on which page, at which cell. */
  method GenerateTicketsPdf(tickets: seq<Ticket>) returns (pages: seq<seq<Placed<Ticket>>>)
    ensures |pages| == (|tickets| + 44) / 45
    ensures |tickets| == 0 ==> pages == []
    // page k holds tickets [45k, min(45k + 45, n)), in order
    ensures forall k :: 0 <= k < |pages| ==>
      45 * k < |tickets| && |pages[k]| == Min(45, |tickets| - 45 * k)
      && forall j :: 0 <= j < |pages[k]| ==> pages[k][j].ticket == tickets[45 * k + j]
    // ticket j of a page sits at row j / 9, column j % 9, inside the 5 × 9 grid
    ensures forall k, j :: 0 <= k < |pages| && 0 <= j < |pages[k]| ==>
      pages[k][j].row == j / 9 < 5 && pages[k][j].col == j % 9
    // no two tickets of a page share a cell
    ensures forall k, j1, j2 :: 0 <= k < |pages| && 0 <= j1 < j2 < |pages[k]| ==>
      (pages[k][j1].row, pages[k][j1].col) != (pages[k][j2].row, pages[k][j2].col)
    // every ticket is drawn, on page t / 45 at slot t % 45
    ensures forall t :: 0 <= t < |tickets| ==>
      t / 45 < |pages| && t % 45 < |pages[t / 45]| && pages[t / 45][t % 45].ticket == tickets[t]
  {
    pages := LayOutPages(tickets, Cols, Rows);
    forall k | 0 <= k < |pages|
      ensures forall j1, j2 :: 0 <= j1 < j2 < |pages[k]| ==>
        (pages[k][j1].row, pages[k][j1].col) != (pages[k][j2].row, pages[k][j2].col)
      ensures forall j :: 0 <= j < |pages[k]| ==> pages[k][j].row < 5
    {
      PageCellsValid(tickets, Cols, Rows, k);
    }
    forall t | 0 <= t < |tickets|
      ensures t / 45 < |pages| && t % 45 < |pages[t / 45]| && pages[t / 45][t % 45].ticket == tickets[t]
    {
      EveryTicketPlaced(tickets, Cols, Rows, TicketsPerPage, t);
    }
  }
}
