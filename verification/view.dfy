/** The order book table: the two normalised lists merged, A4B first, and
    shown one row per order, keyed and numbered by merged position. */
module View {
  import opened Wrappers
  import opened Orders
  import opened Conversion
  import opened Normalizer

  /** `[...ordersA4B, ...ordersB4A]`: the A4B orders, then the B4A orders,
      with no reordering, deduplication or id reconciliation. */
  function Merge(a: seq<DisplayOrder>, b: seq<DisplayOrder>): (r: seq<DisplayOrder>)
    ensures |r| == |a| + |b|
    ensures forall i :: 0 <= i < |a| ==> r[i] == a[i]
    ensures forall j :: 0 <= j < |b| ==> r[|a| + j] == b[j]
    ensures a == [] ==> r == b
    ensures b == [] ==> r == a
  {
    a + b
  }

  /** One table row: the row number, the trader, both amounts, and the tag
      that picks the row's colour. */
  datatype Row = Row(index: nat, trader: string, greenAmount: int, orangeAmount: int, tint: OrderType)

  /** One row per order of the merged view; the row's key and shown number
      is its position, not the order's own `id`. */
  function Rows(view: seq<DisplayOrder>): (rows: seq<Row>)
    ensures |rows| == |view|
    ensures forall i :: 0 <= i < |rows| ==>
              && rows[i].index == i
              && rows[i].trader == view[i].trader
              && rows[i].greenAmount == view[i].greenAmount
              && rows[i].orangeAmount == view[i].orangeAmount
              && rows[i].tint == view[i].orderType
  {
    seq(|view|, i requires 0 <= i < |view| =>
      Row(i, view[i].trader, view[i].greenAmount, view[i].orangeAmount, view[i].orderType))
  }

  /** The whole page: normalise both lists, merge them, lay out the rows. */
  function OrderBook(dataA4B: Option<seq<RawOrder>>, dataB4A: Option<seq<RawOrder>>,
                     parse: string -> Option<int>): (rows: seq<Row>)
    ensures |rows| == CountUnfilled(OrdersOf(dataA4B)) + CountUnfilled(OrdersOf(dataB4A))
    ensures forall i :: 0 <= i < |rows| ==> rows[i].index == i
    ensures forall i :: 0 <= i < |rows| ==>
              rows[i].tint == (if i < CountUnfilled(OrdersOf(dataA4B)) then Green else Orange)
  {
    Rows(Merge(Normalize(dataA4B, A4B, parse), Normalize(dataB4A, B4A, parse)))
  }

  /** Row i below the number of open A4B orders shows the A4B order at the
      i-th open position, with its selling amount as green. */
  lemma A4BRowShows(dataA4B: Option<seq<RawOrder>>, dataB4A: Option<seq<RawOrder>>,
                    parse: string -> Option<int>, i: nat)
    requires i < CountUnfilled(OrdersOf(dataA4B))
    ensures i < |OpenPositions(OrdersOf(dataA4B))|
    ensures var row := OrderBook(dataA4B, dataB4A, parse)[i];
            var o := OrdersOf(dataA4B)[OpenPositions(OrdersOf(dataA4B))[i]];
            && row.trader == o.trader
            && row.greenAmount == OrZero(parse(o.sellingAmount))
            && row.orangeAmount == OrZero(parse(o.buyingAmount))
  {
    NormalizedOrderDepicts(dataA4B, A4B, parse, i);
    OrderBookUnfolds(dataA4B, dataB4A, parse);
  }

  /** Row j after the first |a| rows of a merged view shows order j of the
      right-hand list. */
  lemma RowAfterLeft(a: seq<DisplayOrder>, b: seq<DisplayOrder>, j: nat)
    requires j < |b|
    ensures |a| <= |Rows(Merge(a, b))| && j < |Rows(Merge(a, b))[|a|..]|
    ensures var row := Rows(Merge(a, b))[|a|..][j];
            row.trader == b[j].trader && row.greenAmount == b[j].greenAmount
            && row.orangeAmount == b[j].orangeAmount
  {
    assert Rows(Merge(a, b))[|a|..][j] == Rows(Merge(a, b))[|a| + j];
    assert Merge(a, b)[|a| + j] == b[j];
  }

  /** The page's rows are the rows of the merged normalised lists, and the
      A4B part of the merge is as long as the A4B list has open orders. */
  lemma OrderBookUnfolds(dataA4B: Option<seq<RawOrder>>, dataB4A: Option<seq<RawOrder>>,
                         parse: string -> Option<int>)
    ensures OrderBook(dataA4B, dataB4A, parse)
            == Rows(Merge(Normalize(dataA4B, A4B, parse), Normalize(dataB4A, B4A, parse)))
    ensures |Normalize(dataA4B, A4B, parse)| == CountUnfilled(OrdersOf(dataA4B))
  {
  }

  /** Order j of a normalised list that may be absent depicts the input
      order at the j-th open position. */
  lemma NormalizedOrderDepicts(raw: Option<seq<RawOrder>>, dir: Direction, parse: string -> Option<int>, j: nat)
    requires j < CountUnfilled(OrdersOf(raw))
    ensures j < |Normalize(raw, dir, parse)| && j < |OpenPositions(OrdersOf(raw))|
    ensures Depicts(Normalize(raw, dir, parse)[j], OrdersOf(raw)[OpenPositions(OrdersOf(raw))[j]], dir, parse)
  {
    var xs := OrdersOf(raw);
    assert Normalize(raw, dir, parse) == Normalize(Some(xs), dir, parse);
    NormalizeTracesInput(xs, dir, parse);
  }

  /** Row j of the rows after the open A4B ones shows the B4A order at the
      j-th open position, with its buying amount as green. */
  lemma B4ARowShows(dataA4B: Option<seq<RawOrder>>, dataB4A: Option<seq<RawOrder>>,
                    parse: string -> Option<int>, j: nat)
    requires j < CountUnfilled(OrdersOf(dataB4A))
    ensures j < |OpenPositions(OrdersOf(dataB4A))|
    ensures j < |OrderBook(dataA4B, dataB4A, parse)[CountUnfilled(OrdersOf(dataA4B))..]|
    ensures var row := OrderBook(dataA4B, dataB4A, parse)[CountUnfilled(OrdersOf(dataA4B))..][j];
            var o := OrdersOf(dataB4A)[OpenPositions(OrdersOf(dataB4A))[j]];
            && row.trader == o.trader
            && row.greenAmount == OrZero(parse(o.buyingAmount))
            && row.orangeAmount == OrZero(parse(o.sellingAmount))
  {
    var a := Normalize(dataA4B, A4B, parse);
    var b := Normalize(dataB4A, B4A, parse);
    NormalizedOrderDepicts(dataB4A, B4A, parse, j);
    OrderBookUnfolds(dataA4B, dataB4A, parse);
    RowAfterLeft(a, b, j);
    assert OrderBook(dataA4B, dataB4A, parse)[CountUnfilled(OrdersOf(dataA4B))..] == Rows(Merge(a, b))[|a|..];
  }

  /** `B4ARowShows` at the plain row index: row n + j, where n is the number
      of open A4B orders, is numbered n + j, is tinted Orange and shows the
      B4A order at the j-th open position. (The suffix form above keeps the
      quantified lemmas cheap for the solver.) */
  lemma B4ARowAt(dataA4B: Option<seq<RawOrder>>, dataB4A: Option<seq<RawOrder>>,
                 parse: string -> Option<int>, j: nat)
    requires j < CountUnfilled(OrdersOf(dataB4A))
    ensures j < |OpenPositions(OrdersOf(dataB4A))|
    ensures CountUnfilled(OrdersOf(dataA4B)) + j < |OrderBook(dataA4B, dataB4A, parse)|
    ensures var n := CountUnfilled(OrdersOf(dataA4B));
            var row := OrderBook(dataA4B, dataB4A, parse)[n + j];
            var o := OrdersOf(dataB4A)[OpenPositions(OrdersOf(dataB4A))[j]];
            && row.index == n + j
            && row.tint == Orange
            && row.trader == o.trader
            && row.greenAmount == OrZero(parse(o.buyingAmount))
            && row.orangeAmount == OrZero(parse(o.sellingAmount))
  {
    var rows := OrderBook(dataA4B, dataB4A, parse);
    var n := CountUnfilled(OrdersOf(dataA4B));
    B4ARowShows(dataA4B, dataB4A, parse, j);
    assert rows[n..][j] == rows[n + j];
  }

  /** The first rows of the table show the open A4B orders in input order. */
  lemma A4BRowsShow(dataA4B: Option<seq<RawOrder>>, dataB4A: Option<seq<RawOrder>>,
                    parse: string -> Option<int>)
    ensures |OpenPositions(OrdersOf(dataA4B))| == CountUnfilled(OrdersOf(dataA4B))
    ensures forall i :: 0 <= i < CountUnfilled(OrdersOf(dataA4B)) ==>
              var row := OrderBook(dataA4B, dataB4A, parse)[i];
              var o := OrdersOf(dataA4B)[OpenPositions(OrdersOf(dataA4B))[i]];
              && row.trader == o.trader
              && row.greenAmount == OrZero(parse(o.sellingAmount))
              && row.orangeAmount == OrZero(parse(o.buyingAmount))
  {
    CountIsOpenPositions(OrdersOf(dataA4B));
    forall i | 0 <= i < CountUnfilled(OrdersOf(dataA4B)) {
      A4BRowShows(dataA4B, dataB4A, parse, i);
    }
  }

  /** The rows after the A4B ones show the open B4A orders in input order. */
  lemma B4ARowsShow(dataA4B: Option<seq<RawOrder>>, dataB4A: Option<seq<RawOrder>>,
                    parse: string -> Option<int>)
    ensures |OpenPositions(OrdersOf(dataB4A))| == CountUnfilled(OrdersOf(dataB4A))
    ensures |OrderBook(dataA4B, dataB4A, parse)[CountUnfilled(OrdersOf(dataA4B))..]|
            == CountUnfilled(OrdersOf(dataB4A))
    ensures forall j :: 0 <= j < CountUnfilled(OrdersOf(dataB4A)) ==>
              var row := OrderBook(dataA4B, dataB4A, parse)[CountUnfilled(OrdersOf(dataA4B))..][j];
              var o := OrdersOf(dataB4A)[OpenPositions(OrdersOf(dataB4A))[j]];
              && row.trader == o.trader
              && row.greenAmount == OrZero(parse(o.buyingAmount))
              && row.orangeAmount == OrZero(parse(o.sellingAmount))
  {
    CountIsOpenPositions(OrdersOf(dataB4A));
    forall j | 0 <= j < CountUnfilled(OrdersOf(dataB4A)) {
      B4ARowShows(dataA4B, dataB4A, parse, j);
    }
  }

  /** What the whole table shows: as many rows as open orders, the open A4B
      orders in input order first and the open B4A orders in input order
      after them, each with its own trader and its amounts oriented onto
      green and orange. */
  lemma OrderBookShowsOpenOrders(dataA4B: Option<seq<RawOrder>>, dataB4A: Option<seq<RawOrder>>,
                                 parse: string -> Option<int>)
    ensures var rows := OrderBook(dataA4B, dataB4A, parse);
            var xs := OrdersOf(dataA4B);
            var ys := OrdersOf(dataB4A);
            var n := CountUnfilled(xs);
            && |rows| == n + CountUnfilled(ys)
            && |OpenPositions(xs)| == n
            && |OpenPositions(ys)| == CountUnfilled(ys)
            && (forall i :: 0 <= i < n ==>
                  && rows[i].trader == xs[OpenPositions(xs)[i]].trader
                  && rows[i].greenAmount == OrZero(parse(xs[OpenPositions(xs)[i]].sellingAmount))
                  && rows[i].orangeAmount == OrZero(parse(xs[OpenPositions(xs)[i]].buyingAmount)))
            && (forall j :: 0 <= j < CountUnfilled(ys) ==>
                  && rows[n..][j].trader == ys[OpenPositions(ys)[j]].trader
                  && rows[n..][j].greenAmount == OrZero(parse(ys[OpenPositions(ys)[j]].buyingAmount))
                  && rows[n..][j].orangeAmount == OrZero(parse(ys[OpenPositions(ys)[j]].sellingAmount)))
  {
    A4BRowsShow(dataA4B, dataB4A, parse);
    B4ARowsShow(dataA4B, dataB4A, parse);
  }

  /** In the merged view an A4B order's id is its position and a B4A order's
      id is its position less the number of A4B orders. */
  lemma MergedIds(dataA4B: Option<seq<RawOrder>>, dataB4A: Option<seq<RawOrder>>, parse: string -> Option<int>)
    ensures var n := CountUnfilled(OrdersOf(dataA4B));
            var m := Merge(Normalize(dataA4B, A4B, parse), Normalize(dataB4A, B4A, parse));
            forall i :: 0 <= i < |m| ==> m[i].id == (if i < n then i else i - n)
  {
  }

  /** Ids are unique only within a list: as soon as both lists have an open
      order, the merged view holds two orders with id 0, while the row keys
      stay distinct. */
  lemma IdsRepeatAcrossLists(dataA4B: Option<seq<RawOrder>>, dataB4A: Option<seq<RawOrder>>,
                             parse: string -> Option<int>)
    requires CountUnfilled(OrdersOf(dataA4B)) > 0
    requires CountUnfilled(OrdersOf(dataB4A)) > 0
    ensures var m := Merge(Normalize(dataA4B, A4B, parse), Normalize(dataB4A, B4A, parse));
            var rows := Rows(m);
            exists i, j :: 0 <= i < j < |m| && m[i].id == m[j].id && rows[i].index != rows[j].index
  {
    var a := Normalize(dataA4B, A4B, parse);
    var m := Merge(a, Normalize(dataB4A, B4A, parse));
    assert m[0].id == m[|a|].id == 0;
  }
}
