/** The order normaliser of the order book page: one raw order list and its
    direction in, the list's open orders in a direction-neutral form out. */
module Normalizer {
  import opened Wrappers
  import opened Orders
  import opened Conversion

  /** The number of orders in `xs` that are not filled yet. */
  function CountUnfilled(xs: seq<RawOrder>): nat {
    if xs == [] then 0
    else (if xs[0].orderFilled then 0 else 1) + CountUnfilled(xs[1..])
  }

  /** `filter(order => !order.orderFilled)`: the open orders of `xs`, in
      their original relative order. */
  function Unfilled(xs: seq<RawOrder>): (open: seq<RawOrder>)
    ensures |open| == CountUnfilled(xs) <= |xs|
    ensures forall k :: 0 <= k < |open| ==> !open[k].orderFilled
  {
    if xs == [] then []
    else if xs[0].orderFilled then Unfilled(xs[1..])
    else [xs[0]] + Unfilled(xs[1..])
  }

  /** Filtering keeps an order exactly when it is in the list and open. */
  lemma {:induction false} UnfilledMembers(xs: seq<RawOrder>)
    ensures forall o :: o in Unfilled(xs) <==> o in xs && !o.orderFilled
  {
    if xs != [] {
      UnfilledMembers(xs[1..]);
      assert xs == [xs[0]] + xs[1..];
    }
  }

  /** The positions in `xs` of its open orders, in increasing order. */
  function OpenPositions(xs: seq<RawOrder>): (ps: seq<nat>)
    ensures forall k :: 0 <= k < |ps| ==> ps[k] < |xs| && !xs[ps[k]].orderFilled
    ensures forall k, l :: 0 <= k < l < |ps| ==> ps[k] < ps[l]
    ensures forall i :: 0 <= i < |xs| && !xs[i].orderFilled ==> i in ps
  {
    if xs == [] then []
    else
      var init := xs[..|xs| - 1];
      var rest := OpenPositions(init);
      assert forall k :: 0 <= k < |rest| ==> xs[rest[k]] == init[rest[k]];
      if xs[|xs| - 1].orderFilled then rest else rest + [|xs| - 1]
  }

  /** Filtering a concatenation filters each part. */
  lemma {:induction false} UnfilledAppend(xs: seq<RawOrder>, ys: seq<RawOrder>)
    ensures Unfilled(xs + ys) == Unfilled(xs) + Unfilled(ys)
  {
    if xs == [] {
      assert xs + ys == ys;
    } else {
      var zs := xs + ys;
      assert zs != [] && zs[0] == xs[0];
      assert zs[1..] == xs[1..] + ys;
      UnfilledAppend(xs[1..], ys);
      if xs[0].orderFilled {
        assert Unfilled(zs) == Unfilled(zs[1..]);
        assert Unfilled(xs) == Unfilled(xs[1..]);
      } else {
        assert Unfilled(zs) == [xs[0]] + Unfilled(zs[1..]);
        assert Unfilled(xs) == [xs[0]] + Unfilled(xs[1..]);
      }
    }
  }

  /** The k-th open order is the order at the k-th open position: filtering
      keeps the survivors in their original relative order. */
  lemma {:induction false} UnfilledAt(xs: seq<RawOrder>)
    ensures |Unfilled(xs)| == |OpenPositions(xs)|
    ensures forall k :: 0 <= k < |Unfilled(xs)| ==> Unfilled(xs)[k] == xs[OpenPositions(xs)[k]]
  {
    if xs != [] {
      var init := xs[..|xs| - 1];
      var last := xs[|xs| - 1];
      UnfilledAt(init);
      UnfilledSnoc(xs);
      OpenPositionsSnoc(xs);
      var open, ps := Unfilled(init), OpenPositions(init);
      var tail := if last.orderFilled then [] else [last];
      var tailPs := if last.orderFilled then [] else [|xs| - 1];
      assert Unfilled(xs) == open + tail;
      assert OpenPositions(xs) == ps + tailPs;
      forall k | 0 <= k < |open + tail|
        ensures (open + tail)[k] == xs[(ps + tailPs)[k]]
      {
        if k < |ps| {
          assert xs[ps[k]] == init[ps[k]];
        }
      }
    }
  }

  /** The open positions of a non-empty list are those of all but its last
      order, followed by the last position exactly when that order is open. */
  lemma OpenPositionsSnoc(xs: seq<RawOrder>)
    requires xs != []
    ensures OpenPositions(xs)
            == OpenPositions(xs[..|xs| - 1]) + (if xs[|xs| - 1].orderFilled then [] else [|xs| - 1])
  {
  }

  /** Filtering a non-empty list filters all but its last order and then
      keeps the last order exactly when it is open. */
  lemma {:induction false} UnfilledSnoc(xs: seq<RawOrder>)
    requires xs != []
    ensures var last := xs[|xs| - 1];
            Unfilled(xs) == Unfilled(xs[..|xs| - 1]) + (if last.orderFilled then [] else [last])
  {
    var init := xs[..|xs| - 1];
    var last := xs[|xs| - 1];
    assert xs == init + [last];
    UnfilledAppend(init, [last]);
    assert Unfilled([last]) == (if last.orderFilled then [] else [last]) by {
      assert [last][1..] == [];
    }
  }

  /** Orients a pair of direction-relative amounts onto (green, orange):
      an A4B order sells Green, a B4A order sells Orange. */
  function Orient(dir: Direction, selling: int, buying: int): (int, int) {
    match dir
    case A4B => (selling, buying)
    case B4A => (buying, selling)
  }

  /** The display form of the open order `o` at position `id` of its
      filtered list; each amount is converted on its own. */
  function Project(o: RawOrder, id: nat, dir: Direction, parse: string -> Option<int>): (d: DisplayOrder)
    ensures d.id == id && Depicts(d, o, dir, parse)
  {
    var sellingAmount := OrZero(parse(o.sellingAmount));
    var buyingAmount := OrZero(parse(o.buyingAmount));
    var (green, orange) := Orient(dir, sellingAmount, buyingAmount);
    DisplayOrder(id, TypeOf(dir), o.trader, green, orange, o.orderFilled)
  }

  /** The raw orders of a list that may be absent; absent reads as empty. */
  function OrdersOf(raw: Option<seq<RawOrder>>): seq<RawOrder> {
    raw.GetOr([])
  }

  /** `d` shows raw order `o` of the `dir` list: trader, filled flag and the
      direction's tag carried over; under A4B the converted selling amount is
      green and the converted buying amount orange, under B4A the reverse; a
      failed conversion reads as 0. */
  predicate Depicts(d: DisplayOrder, o: RawOrder, dir: Direction, parse: string -> Option<int>) {
    && d.trader == o.trader
    && d.isFilled == o.orderFilled
    && d.orderType == TypeOf(dir)
    && (dir == A4B ==>
          d.greenAmount == OrZero(parse(o.sellingAmount)) && d.orangeAmount == OrZero(parse(o.buyingAmount)))
    && (dir == B4A ==>
          d.greenAmount == OrZero(parse(o.buyingAmount)) && d.orangeAmount == OrZero(parse(o.sellingAmount)))
  }

  /** The direction-parameterised normaliser: drop filled orders, number the
      survivors by their position among the survivors, orient the amounts. */
  function Normalize(raw: Option<seq<RawOrder>>, dir: Direction, parse: string -> Option<int>): (r: seq<DisplayOrder>)
    ensures raw.None? ==> r == []
    ensures |r| == CountUnfilled(OrdersOf(raw)) <= |OrdersOf(raw)|
    ensures forall k :: 0 <= k < |r| ==> r[k].id == k && !r[k].isFilled && r[k].orderType == TypeOf(dir)
  {
    match raw
    case None => []
    case Some(xs) =>
      var open := Unfilled(xs);
      seq(|open|, k requires 0 <= k < |open| => Project(open[k], k, dir, parse))
  }

  /** Output k depicts the input order at the k-th open position, and the
      open positions are exactly the unfilled ones, in increasing order: no
      open order is lost, none is duplicated, none is reordered. */
  lemma NormalizeTracesInput(xs: seq<RawOrder>, dir: Direction, parse: string -> Option<int>)
    ensures var r := Normalize(Some(xs), dir, parse);
            var ps := OpenPositions(xs);
            && |r| == |ps|
            && (forall k :: 0 <= k < |r| ==> r[k].id == k && Depicts(r[k], xs[ps[k]], dir, parse))
  {
    UnfilledAt(xs);
  }

  /** The number of open orders is the number of open positions. */
  lemma CountIsOpenPositions(xs: seq<RawOrder>)
    ensures |OpenPositions(xs)| == CountUnfilled(xs)
  {
    UnfilledAt(xs);
  }

  /** A conversion failure zeroes only its own field: under A4B a bad
      selling amount gives green 0 while orange keeps the converted buying
      amount, and symmetrically under B4A. */
  lemma FailureZeroesOneField(xs: seq<RawOrder>, dir: Direction, parse: string -> Option<int>, k: nat)
    requires k < |OpenPositions(xs)|
    requires parse(xs[OpenPositions(xs)[k]].sellingAmount).None?
    requires parse(xs[OpenPositions(xs)[k]].buyingAmount).Some?
    ensures var r := Normalize(Some(xs), dir, parse);
            var v := parse(xs[OpenPositions(xs)[k]].buyingAmount).value;
            && k < |r|
            && (dir == A4B ==> r[k].greenAmount == 0 && r[k].orangeAmount == v)
            && (dir == B4A ==> r[k].greenAmount == v && r[k].orangeAmount == 0)
  {
    NormalizeTracesInput(xs, dir, parse);
  }

  /** Each amount depends on its own conversion only: the field on the side
      of the asset sold is 0 when the selling amount fails to convert and its
      value when it converts, whatever happens to the buying amount, and the
      same holds for the field on the side of the asset bought. */
  lemma EachAmountConvertsAlone(xs: seq<RawOrder>, dir: Direction, parse: string -> Option<int>, k: nat)
    requires k < |OpenPositions(xs)|
    ensures var r := Normalize(Some(xs), dir, parse);
            var o := xs[OpenPositions(xs)[k]];
            && k < |r|
            && var sold := if dir == A4B then r[k].greenAmount else r[k].orangeAmount;
               var bought := if dir == A4B then r[k].orangeAmount else r[k].greenAmount;
               && (parse(o.sellingAmount).None? ==> sold == 0)
               && (parse(o.sellingAmount).Some? ==> sold == parse(o.sellingAmount).value)
               && (parse(o.buyingAmount).None? ==> bought == 0)
               && (parse(o.buyingAmount).Some? ==> bought == parse(o.buyingAmount).value)
  {
    NormalizeTracesInput(xs, dir, parse);
  }

  /** The two directions are mirror images: the B4A normal form of a list is
      its A4B normal form with the amounts swapped and the tag changed. */
  lemma DirectionsMirror(raw: Option<seq<RawOrder>>, parse: string -> Option<int>)
    ensures var a := Normalize(raw, A4B, parse);
            var b := Normalize(raw, B4A, parse);
            && |a| == |b|
            && forall k :: 0 <= k < |a| ==>
                 b[k] == a[k].(orderType := Orange, greenAmount := a[k].orangeAmount, orangeAmount := a[k].greenAmount)
  {
  }

  /** The `ordersA4B` memo body as written: the mapping hard-wired to
      selling -> green, buying -> orange and the tag 'Green'. */
  function NormalizeA4B(dataA4B: Option<seq<RawOrder>>, parse: string -> Option<int>): seq<DisplayOrder> {
    match dataA4B
    case None => []
    case Some(data) =>
      var open := Unfilled(data);
      seq(|open|, index requires 0 <= index < |open| =>
        var sellingAmount := parse(open[index].sellingAmount);
        var buyingAmount := parse(open[index].buyingAmount);
        DisplayOrder(index, Green, open[index].trader,
                     OrZero(sellingAmount), OrZero(buyingAmount), open[index].orderFilled))
  }

  /** The `ordersB4A` memo body as written: the mapping hard-wired to
      buying -> green, selling -> orange and the tag 'Orange'. */
  function NormalizeB4A(dataB4A: Option<seq<RawOrder>>, parse: string -> Option<int>): seq<DisplayOrder> {
    match dataB4A
    case None => []
    case Some(data) =>
      var open := Unfilled(data);
      seq(|open|, index requires 0 <= index < |open| =>
        var sellingAmount := parse(open[index].sellingAmount);
        var buyingAmount := parse(open[index].buyingAmount);
        DisplayOrder(index, Orange, open[index].trader,
                     OrZero(buyingAmount), OrZero(sellingAmount), open[index].orderFilled))
  }

  /** The single direction-parameterised normaliser is each of the two
      hand-written memo bodies. */
  lemma NormalizeIsEachMemo(raw: Option<seq<RawOrder>>, parse: string -> Option<int>)
    ensures Normalize(raw, A4B, parse) == NormalizeA4B(raw, parse)
    ensures Normalize(raw, B4A, parse) == NormalizeB4A(raw, parse)
  {
  }
}
