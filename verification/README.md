# Order book normaliser

A Dafny model of the order book page of a two-asset exchange front end. The
exchange contract keeps two order lists: A4B ("Green for Orange", orders that
sell Green) and B4A ("Orange for Green", orders that sell Orange). Both use
the same raw order shape: trader, `sellingAmount`, `buyingAmount` and
`orderFilled`. The amounts are relative to each order's own selling side.
The page normalises each list:

- it drops filled orders;
- it numbers the survivors by their position among the survivors;
- it puts the amounts on a direction-neutral Green/Orange axis;
- it reads an amount whose conversion fails as 0.

It then shows the A4B list followed by the B4A list as one table, numbered
by row position.

Modules:

- `Wrappers`: `Option`, for an absent list and a failed conversion.
- `Orders`: the data model. `Direction`, `OrderType`, `RawOrder` and
  `DisplayOrder` are defined here. The source's `type` field is named
  `orderType`, because `type` is a Dafny keyword.
- `Conversion`: the "not-a-number reads as 0" rule. It also holds
  `DecimalNumber`, a concrete conversion for decimal amounts.
- `Normalizer`: the normaliser for one list. It has one
  direction-parameterised `Normalize` and the two memo bodies as written.
- `View`: merging, row layout and the whole page.
- `Scenarios`: worked cases with the decimal conversion.

JavaScript's `Number(...)` is a parameter `parse: string -> Option<int>`.
`None` stands for not-a-number. Every property about the normaliser holds
for every conversion.

## Model

| member | source | states |
|---|---|---|
| `Normalizer.Normalize` | packages/nextjs/app/orderbook/page.tsx:16-52 | An absent list gives no orders. The output has exactly as many orders as the input has unfilled ones, so it is never longer than the input. Output k has id k, is not filled, and carries the direction's tag (Green for A4B, Orange for B4A). |
| `Normalizer.Project` | packages/nextjs/app/orderbook/page.tsx:19-28 | The map callback for one open order, as at lines 19-28 and 41-50. The result has the given id and depicts the order: its trader, filled flag and the direction's tag. Under A4B the converted selling amount is green and the converted buying amount orange; under B4A the reverse. A failed conversion reads as 0. |
| `Conversion.OrZero` | packages/nextjs/app/orderbook/page.tsx:25-26 | `isNaN(v) ? 0 : v`, as at lines 25-26 and 47-48. A failed conversion gives 0 and a successful one gives its value. |
| `Normalizer.Unfilled` | packages/nextjs/app/orderbook/page.tsx:18 | The filter keeps as many orders as the input has unfilled ones, and every order it keeps is unfilled. |
| `Normalizer.UnfilledMembers` | packages/nextjs/app/orderbook/page.tsx:18 | The filter keeps an order exactly when it is in the input and is not filled. |
| `Normalizer.OpenPositions` | packages/nextjs/app/orderbook/page.tsx:18 | The unfilled positions of a list: each one is a valid unfilled position, they strictly increase, and every unfilled position is among them. |
| `Normalizer.UnfilledAppend` | packages/nextjs/app/orderbook/page.tsx:18 | Filtering a concatenation is the concatenation of the filtered parts. |
| `Normalizer.UnfilledAt` | packages/nextjs/app/orderbook/page.tsx:18 | The k-th surviving order is the input order at the k-th unfilled position, so survivors keep their original relative order. |
| `Normalizer.CountIsOpenPositions` | packages/nextjs/app/orderbook/page.tsx:18 | The number of unfilled positions equals the count of orders with `orderFilled == false`. |
| `Normalizer.NormalizeTracesInput` | packages/nextjs/app/orderbook/page.tsx:18-27 | Output k has id k, its zero-based position among the unfilled orders rather than in the input. It depicts the input order at the k-th unfilled position: same trader, same filled flag and the direction's tag. For A4B, green is the converted selling amount and orange the converted buying amount. For B4A the two are swapped. A failed conversion reads as 0. |
| `Normalizer.FailureZeroesOneField` | packages/nextjs/app/orderbook/page.tsx:19-26 | Take an order whose selling amount fails to convert and whose buying amount converts to v. Under A4B it shows green 0 and orange v. Under B4A it shows green v and orange 0 (lines 41-48). So a failure in one field does not zero the other. |
| `Normalizer.EachAmountConvertsAlone` | packages/nextjs/app/orderbook/page.tsx:19-26 | For every shown order and both directions, the amount on the side of the asset sold is 0 when the selling amount fails to convert and its value otherwise. The amount on the side of the asset bought follows the buying amount the same way. Neither depends on the other field's conversion (lines 25-26 and 47-48). |
| `Normalizer.DirectionsMirror` | packages/nextjs/app/orderbook/page.tsx:38-52 | The B4A form of any list is its A4B form (lines 16-30) with the two amounts swapped and the tag changed to Orange. Everything else, ids included, stays the same. |
| `Normalizer.NormalizeA4B` | packages/nextjs/app/orderbook/page.tsx:16-30 | The `ordersA4B` memo body as written: selling amount to green, buying amount to orange, tag Green. It has no contract of its own; it is the reference side of `Normalizer.NormalizeIsEachMemo`. |
| `Normalizer.NormalizeB4A` | packages/nextjs/app/orderbook/page.tsx:38-52 | The `ordersB4A` memo body as written: buying amount to green, selling amount to orange, tag Orange. It has no contract of its own; it is the reference side of `Normalizer.NormalizeIsEachMemo`. |
| `Normalizer.NormalizeIsEachMemo` | packages/nextjs/app/orderbook/page.tsx:16-52 | The single direction-parameterised normaliser equals the `ordersA4B` memo body for A4B and the `ordersB4A` memo body for B4A, on every input. |
| `Conversion.DecimalNumber` | packages/nextjs/app/orderbook/page.tsx:19-20 | On decimal amounts a successful conversion is never negative. A non-empty string with any non-digit character is not-a-number. |
| `Conversion.ParseDigits` | packages/nextjs/app/orderbook/page.tsx:19-20 | A non-empty string has a value exactly when every character is a decimal digit. |
| `Conversion.DecimalRoundTrip` | packages/nextjs/app/orderbook/page.tsx:19 | Converting the decimal spelling of any amount gives back that amount. |
| `View.Merge` | packages/nextjs/app/orderbook/page.tsx:80 | The merged view is the A4B orders in their own order, then the B4A orders in theirs. Nothing is dropped, reordered or deduplicated. An empty side leaves the other side unchanged. |
| `View.Rows` | packages/nextjs/app/orderbook/page.tsx:80-85 | There is one row per merged order. Row i is keyed and numbered i and shows that order's trader, green amount, orange amount and colour tag. |
| `View.OrderBook` | packages/nextjs/app/orderbook/page.tsx:63-87 | The table has one row per unfilled order of the two lists. Row i is numbered i. The first rows, one per open A4B order, are Green; the rest are Orange. |
| `View.A4BRowShows` | packages/nextjs/app/orderbook/page.tsx:16-30 | Row i, for i below the number of open A4B orders, shows the A4B order at the i-th open position. It shows that order's trader, the converted selling amount as green and the converted buying amount as orange (rows as at lines 80-85). |
| `View.B4ARowShows` | packages/nextjs/app/orderbook/page.tsx:38-52 | Among the rows after the open A4B ones, row j shows the B4A order at the j-th open position. It shows that order's trader, the converted buying amount as green and the converted selling amount as orange (rows as at lines 80-85). |
| `View.B4ARowAt` | packages/nextjs/app/orderbook/page.tsx:80-85 | Let n be the number of open A4B orders. Row n + j is numbered n + j and tinted Orange. It shows the B4A order at the j-th open position: its trader, the converted buying amount as green and the converted selling amount as orange. |
| `View.A4BRowsShow` | packages/nextjs/app/orderbook/page.tsx:80-85 | The first rows of the table, one per open A4B order, show the open A4B orders in input order, each with its trader and its amounts oriented as at lines 25-26. |
| `View.B4ARowsShow` | packages/nextjs/app/orderbook/page.tsx:80-85 | The rows after the A4B ones are as many as the B4A list's open orders. They show those orders in input order, each with its trader and its amounts oriented as at lines 47-48. |
| `View.OrderBookShowsOpenOrders` | packages/nextjs/app/orderbook/page.tsx:80-85 | What the whole table shows. It has one row per open order: first the open A4B orders in input order, then, in the rows after them, the open B4A orders in input order. Each row shows its order's trader and amounts, oriented per list. |
| `View.MergedIds` | packages/nextjs/app/orderbook/page.tsx:80-82 | In the merged view an A4B order's id is its position. A B4A order's id is its position minus the number of A4B orders. |
| `View.IdsRepeatAcrossLists` | packages/nextjs/app/orderbook/page.tsx:80-82 | When both lists have an open order, two orders in the merged view share an id while their row keys differ. Ids are unique only within a list. |
| `Scenarios.AbsentListsShowNothing` | packages/nextjs/app/orderbook/page.tsx:17 | When neither list has been read (lines 17 and 39), the merged table at line 80 has no rows, for any conversion. |
| `Scenarios.OpenAndFilledA4B` | packages/nextjs/app/orderbook/page.tsx:16-30 | An open and a filled A4B order give exactly one displayed order: id 0, Green, trader "0xA", green 100, orange 50, not filled. |
| `Scenarios.SingleB4A` | packages/nextjs/app/orderbook/page.tsx:38-52 | One open B4A order selling 20 for 40 shows as id 0, Orange, green 40, orange 20. |
| `Scenarios.NonNumericSelling` | packages/nextjs/app/orderbook/page.tsx:19-26 | An A4B order with selling amount "not-a-number" and buying amount "50" shows green 0 and orange 50. |

## Left out

- The contract reads `useDeployedContractInfo` and `useContractRead` (lines 8-14 and 32-36) are not modelled; they are on-chain reads through libraries that are not part of this model. The two lists are inputs, and an unavailable list is `None`.
- `useMemo` memoisation and React re-rendering are not modelled. The normaliser is a pure function, so recomputing it gives the same result.
- The `isLoading`/`isError` flags (lines 57-58 and 65-66) are not modelled. They are the constants `false`, so the table always renders.
- The JSX table markup and CSS classes (lines 68-91) are not modelled beyond the row contents and the colour tag.
- The raw amounts are modelled as strings. The contract's ABI is not part of this model. A contract read of a uint256 amount would normally arrive as a bigint, for which `Number()` never yields not-a-number. The not-a-number rule is modelled for any input the conversion rejects.
- The IEEE-754 behaviour of `Number()` is not modelled: precision loss on large amounts, fractional values and the exact NaN rules. Amounts are unbounded integers.
- Conversion.DecimalNumber: models `Number()` only on the empty string (0) and on strings of ASCII decimal digits. It treats every other string as not-a-number. JavaScript also accepts surrounding whitespace, a sign, a decimal point, an exponent, hex/octal/binary prefixes and "Infinity". The normaliser's properties are stated for an arbitrary conversion, so they do not depend on this.
