/** The checkout screen's logic: the two input formatters that run on every
    keystroke of the card-number and expiry fields, and the order totals. */
module Checkout {
  import opened Lists
  import Cart

  predicate IsDigit(c: char) {
    '0' <= c <= '9'
  }

  predicate NotSpace(c: char) {
    c != ' '
  }

  /** `text.replace(/\D/g, "")`: the ASCII digits of `text`, in order. */
  function Digits(text: string): (r: string)
    ensures |r| <= |text|
    ensures forall k :: 0 <= k < |r| ==> IsDigit(r[k])
  {
    Filter(text, IsDigit)
  }

  /** Deleting the spaces of `s`. */
  function StripSpaces(s: string): string {
    Filter(s, NotSpace)
  }

  ghost predicate AllDigits(s: string) {
    forall k :: 0 <= k < |s| ==> IsDigit(s[k])
  }

  function Min(a: int, b: int): int {
    if a <= b then a else b
  }

  /** JavaScript `s.substring(start, end)` for non-negative arguments: both
      ends are clamped to the length and swapped when out of order. */
  function Substring(s: string, start: nat, end: nat): (r: string)
    ensures |r| <= |s|
    ensures start <= end <= |s| ==> r == s[start..end]
    ensures start <= |s| <= end ==> r == s[start..]
    ensures |s| <= start && |s| <= end ==> r == ""
  {
    var a, b := Min(start, |s|), Min(end, |s|);
    if a <= b then s[a..b] else s[b..a]
  }

  // ---------------------------------------------------------------------
  // Card number

  /** The displayed width of a 16-digit card number in groups of four. */
  const CARD_NUMBER_WIDTH: nat := 19

  /** The consecutive groups of four characters, the last possibly shorter. */
  function Chunks(s: string): (groups: seq<string>)
    requires s != ""
    ensures groups != []
    ensures forall k :: 0 <= k < |groups| ==> 1 <= |groups[k]| <= 4
    ensures forall k :: 0 <= k < |groups| - 1 ==> |groups[k]| == 4
    decreases |s|
  {
    if |s| <= 4 then [s] else [s[..4]] + Chunks(s[4..])
  }

  /** `s.match(/.{1,4}/g)` on a string of digits: null when it is empty. */
  function GroupsOfFour(s: string): (r: Option<seq<string>>)
    ensures r.None? <==> s == ""
  {
    if s == "" then None else Some(Chunks(s))
  }

  /** `groups.join(sep)` */
  function Join(groups: seq<string>, sep: string): string {
    if groups == [] then ""
    else if |groups| == 1 then groups[0]
    else groups[0] + sep + Join(groups[1..], sep)
  }

  /** A non-empty digit string written in groups of four. */
  function Grouped(d: string): string
    requires d != ""
  {
    Join(Chunks(d), " ")
  }

  /** `formatCardNumber`: keep the digits, group them by four separated by
      spaces, cut to 19 characters. */
  function FormatCardNumber(text: string): (r: string)
    ensures |r| <= CARD_NUMBER_WIDTH
    ensures forall k :: 0 <= k < |r| ==> IsDigit(r[k]) || r[k] == ' '
  {
    var cleaned := Digits(text);
    match GroupsOfFour(cleaned)
    case Some(groups) =>
      GroupedAt(cleaned);
      Substring(Join(groups, " "), 0, CARD_NUMBER_WIDTH)
    case None => ""
  }

  /** Where each character of the grouped form comes from: every fifth
      position is a space, the others are the digits in order. */
  lemma {:induction false} GroupedAt(d: string)
    requires d != ""
    ensures |Grouped(d)| == |d| + (|d| - 1) / 4
    ensures forall i :: 0 <= i < |Grouped(d)| ==>
              Grouped(d)[i] == if i % 5 == 4 then ' ' else d[i / 5 * 4 + i % 5]
    decreases |d|
  {
    if |d| > 4 {
      var rest := d[4..];
      GroupedAt(rest);
      var g, g' := Grouped(d), Grouped(rest);
      assert Chunks(d)[1..] == Chunks(rest);
      assert g == d[..4] + " " + g';
      forall i | 0 <= i < |g|
        ensures g[i] == if i % 5 == 4 then ' ' else d[i / 5 * 4 + i % 5]
      {
        if i >= 5 {
          var j := i - 5;
          assert g[i] == g'[j];
          assert j % 5 == i % 5 && j / 5 == i / 5 - 1;
          if j % 5 != 4 {
            assert rest[j / 5 * 4 + j % 5] == d[i / 5 * 4 + i % 5];
          }
        }
      }
    }
  }

  /** Cutting the grouped form of more than 16 digits at 19 characters gives
      the grouped form of the first 16. */
  lemma GroupedCut(d: string)
    requires |d| > 16
    ensures Substring(Grouped(d), 0, CARD_NUMBER_WIDTH) == Grouped(d[..16])
  {
    GroupedAt(d);
    GroupedAt(d[..16]);
    var cut := Substring(Grouped(d), 0, CARD_NUMBER_WIDTH);
    assert cut == Grouped(d)[..19];
    forall i | 0 <= i < 19 ensures cut[i] == Grouped(d[..16])[i] {
      if i % 5 != 4 {
        assert i / 5 * 4 + i % 5 < 16;
      }
    }
  }

  /** The card field in closed form: the grouped form of the first
      min(16, n) digits, or "" when there are none. */
  lemma CardNumberClosedForm(text: string)
    ensures var d := Digits(text);
            FormatCardNumber(text) == if d == "" then "" else Grouped(d[..Min(16, |d|)])
  {
    var d := Digits(text);
    if d != "" {
      if |d| > 16 {
        GroupedCut(d);
      } else {
        GroupedAt(d);
        assert d[..|d|] == d;
      }
    }
  }

  lemma {:induction false} StripGrouped(d: string)
    requires d != "" && AllDigits(d)
    ensures StripSpaces(Grouped(d)) == d
    decreases |d|
  {
    if |d| <= 4 {
      FilterKeepsAll(d, NotSpace);
    } else {
      var rest := d[4..];
      assert Chunks(d)[1..] == Chunks(rest);
      StripGrouped(rest);
      FilterAppend(d[..4] + " ", Grouped(rest), NotSpace);
      FilterAppend(d[..4], " ", NotSpace);
      FilterKeepsAll(d[..4], NotSpace);
      assert Filter(" ", NotSpace) == "" by { assert " "[1..] == ""; }
      assert d[..4] + rest == d;
    }
  }

  /** Deleting the spaces from the formatted card number gives back exactly
      the first min(16, n) digits typed, n being the number of digits. */
  lemma CardNumberDigits(text: string)
    ensures StripSpaces(FormatCardNumber(text)) == Digits(text)[..Min(16, |Digits(text)|)]
  {
    var d := Digits(text);
    CardNumberClosedForm(text);
    if d == "" {
      assert StripSpaces("") == "";
    } else {
      StripGrouped(d[..Min(16, |d|)]);
    }
  }

  /** Only digits and spaces: deleting the digits' complement is deleting the spaces. */
  lemma {:induction false} DigitsOfDigitsAndSpaces(s: string)
    requires forall k :: 0 <= k < |s| ==> IsDigit(s[k]) || s[k] == ' '
    ensures Digits(s) == StripSpaces(s)
  {
    if s != "" {
      DigitsOfDigitsAndSpaces(s[1..]);
    }
  }

  /** The shape of the card field: a space exactly at every fifth position,
      digits elsewhere, never a trailing space, so groups of four digits
      separated by single spaces and a last group of 1 to 4 digits; and ""
      exactly when no digit was typed. */
  lemma CardNumberShape(text: string)
    ensures var r := FormatCardNumber(text);
            && (r == "" <==> Digits(text) == "")
            && (forall i :: 0 <= i < |r| ==> (r[i] == ' ' <==> i % 5 == 4) && (i % 5 != 4 ==> IsDigit(r[i])))
            && (r != "" ==> |r| % 5 != 0)
  {
    var d := Digits(text);
    CardNumberClosedForm(text);
    if d != "" {
      GroupedShape(d[..Min(16, |d|)]);
    }
  }

  /** The grouped form of a non-empty digit string: spaces exactly at every
      fifth position, digits elsewhere, and no trailing space. */
  lemma GroupedShape(e: string)
    requires e != "" && AllDigits(e)
    ensures var g := Grouped(e);
            && g != ""
            && (forall i :: 0 <= i < |g| ==> (g[i] == ' ' <==> i % 5 == 4) && (i % 5 != 4 ==> IsDigit(g[i])))
            && |g| % 5 != 0
  {
    GroupedAt(e);
  }

  /** Formatting the formatted card number changes nothing, so feeding the
      field's value back into the formatter on every keystroke is stable. */
  lemma CardNumberIdempotent(text: string)
    ensures FormatCardNumber(FormatCardNumber(text)) == FormatCardNumber(text)
  {
    var r := FormatCardNumber(text);
    var d := Digits(text);
    var e := d[..Min(16, |d|)];
    CardNumberDigits(text);
    DigitsOfDigitsAndSpaces(r);
    assert Digits(r) == e;
    CardNumberClosedForm(r);
    CardNumberClosedForm(text);
    assert e[..Min(16, |e|)] == e;
  }

  // ---------------------------------------------------------------------
  // Expiry date

  /** `formatExpiryDate`: fewer than two digits are shown as they are;
      otherwise the first two digits, "/", and the next up to two. */
  function FormatExpiryDate(text: string): (r: string)
    ensures var d := Digits(text);
            && (|d| < 2 ==> r == d)
            && (|d| >= 2 ==> 3 <= |r| <= 5 && r[2] == '/'
                             && r[..2] == d[..2] && r[3..] == d[2..Min(4, |d|)])
  {
    var cleaned := Digits(text);
    if |cleaned| >= 2 then Substring(cleaned, 0, 2) + "/" + Substring(cleaned, 2, 4)
    else cleaned
  }

  lemma {:induction false} DigitsOfDigits(s: string)
    requires AllDigits(s)
    ensures Digits(s) == s
  {
    FilterKeepsAll(s, IsDigit);
  }

  /** Formatting the formatted expiry date changes nothing. */
  lemma ExpiryDateIdempotent(text: string)
    ensures FormatExpiryDate(FormatExpiryDate(text)) == FormatExpiryDate(text)
  {
    var d := Digits(text);
    var r := FormatExpiryDate(text);
    if |d| < 2 {
      DigitsOfDigits(d);
    } else {
      var e := d[..Min(4, |d|)];
      assert r == d[..2] + "/" + d[2..Min(4, |d|)];
      FilterAppend(d[..2] + "/", d[2..Min(4, |d|)], IsDigit);
      FilterAppend(d[..2], "/", IsDigit);
      DigitsOfDigits(d[..2]);
      DigitsOfDigits(d[2..Min(4, |d|)]);
      assert Digits("/") == "" by { assert "/"[1..] == ""; }
      assert Digits(r) == e;
      assert e[..2] == d[..2] && e[2..Min(4, |e|)] == d[2..Min(4, |d|)];
    }
  }

  // ---------------------------------------------------------------------
  // Order totals, in exact arithmetic

  const TAX_RATE: real := 0.08
  const SHIPPING_COST: real := 9.99

  datatype Totals = Totals(subtotal: real, tax: real, grandTotal: real)

  /** The summary the checkout screen shows for a cart. */
  function OrderTotals(items: seq<Cart.CartItem>): Totals {
    var subtotal := Cart.Subtotal(items);
    var tax := subtotal * TAX_RATE;
    Totals(subtotal, tax, subtotal + tax + SHIPPING_COST)
  }

  /** The grand total is the subtotal grown by the tax rate, plus shipping,
      for every cart; whenever the subtotal is not negative, neither is the
      tax, and the grand total is at least the shipping cost. */
  lemma OrderTotalsBounds(items: seq<Cart.CartItem>)
    ensures var t := OrderTotals(items);
            && t.grandTotal == t.subtotal * (1.0 + TAX_RATE) + SHIPPING_COST
            && (t.subtotal >= 0.0 ==> t.tax >= 0.0 && t.grandTotal >= SHIPPING_COST)
  {
  }

  /** A cart with no negative price or quantity has a non-negative subtotal,
      so it pays at least the shipping cost. */
  lemma CheckedCartTotals(items: seq<Cart.CartItem>)
    requires forall k :: 0 <= k < |items| ==> items[k].price >= 0.0 && items[k].quantity >= 0
    ensures var t := OrderTotals(items);
            t.subtotal >= 0.0 && t.tax >= 0.0 && t.grandTotal >= SHIPPING_COST
  {
    Cart.SubtotalNonNegative(items);
    OrderTotalsBounds(items);
  }

  /** An empty cart still pays shipping. */
  lemma EmptyCartTotals()
    ensures OrderTotals([]) == Totals(0.0, 0.0, SHIPPING_COST)
  {
  }
}
