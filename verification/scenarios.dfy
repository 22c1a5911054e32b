/** Worked cases of the normaliser with the decimal conversion. */
module Scenarios {
  import opened Wrappers
  import opened Orders
  import opened Conversion
  import opened Normalizer
  import opened View

  /** An open and a filled A4B order: only the open one is shown, as order 0
      with selling amount on the Green side. */
  lemma OpenAndFilledA4B()
    ensures Normalize(Some([RawOrder("0xA", "100", "50", false), RawOrder("0xB", "10", "5", true)]),
                      A4B, DecimalNumber)
            == [DisplayOrder(0, Green, "0xA", 100, 50, false)]
  {
    DecimalRoundTrip(100);
    DecimalRoundTrip(50);
    assert ShowDecimal(100) == "100";
    assert ShowDecimal(50) == "50";
  }

  /** A B4A order shows its buying amount on the Green side. */
  lemma SingleB4A()
    ensures Normalize(Some([RawOrder("0xC", "20", "40", false)]), B4A, DecimalNumber)
            == [DisplayOrder(0, Orange, "0xC", 40, 20, false)]
  {
    DecimalRoundTrip(20);
    DecimalRoundTrip(40);
    assert ShowDecimal(20) == "20";
    assert ShowDecimal(40) == "40";
  }

  /** A non-numeric selling amount becomes 0 without touching the buying amount. */
  lemma NonNumericSelling()
    ensures Normalize(Some([RawOrder("0xD", "not-a-number", "50", false)]), A4B, DecimalNumber)
            == [DisplayOrder(0, Green, "0xD", 0, 50, false)]
  {
    DecimalRoundTrip(50);
    assert ShowDecimal(50) == "50";
    assert DigitValue("not-a-number"[0]).None?;
  }

  /** Absent lists show no rows in either direction. */
  lemma AbsentListsShowNothing(parse: string -> Option<int>)
    ensures OrderBook(None, None, parse) == []
  {
  }
}
