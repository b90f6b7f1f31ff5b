/** The mock card payment inside the checkout view (orders/views.py). */
module CardPayment {
  import opened Common
  import opened Orders

  /** `card_number.replace(' ', '')`. */
  function StripSpaces(s: string): (r: string)
    ensures |r| <= |s|
    ensures ' ' !in r
    ensures ' ' !in s ==> r == s
    ensures |r| == |s| - multiset(s)[' ']
  {
    if s == [] then []
    else
      assert s == [s[0]] + s[1..];
      (if s[0] == ' ' then [] else [s[0]]) + StripSpaces(s[1..])
  }

  /** Stripping distributes over concatenation: the characters other than spaces are kept in order. */
  lemma {:induction false} StripSpacesAppend(a: string, b: string)
    ensures StripSpaces(a + b) == StripSpaces(a) + StripSpaces(b)
  {
    if a == [] {
      assert a + b == b;
    } else {
      var head := if a[0] == ' ' then [] else [a[0]];
      assert (a + b)[0] == a[0];
      assert (a + b)[1..] == a[1..] + b;
      StripSpacesAppend(a[1..], b);
      calc {
        StripSpaces(a + b);
        head + StripSpaces(a[1..] + b);
        head + (StripSpaces(a[1..]) + StripSpaces(b));
        (head + StripSpaces(a[1..])) + StripSpaces(b);
        StripSpaces(a) + StripSpaces(b);
      }
    }
  }

  /** `raw[-4:] if len(raw) >= 4 else raw`: the last four characters, or all of a shorter string. */
  function Last4(raw: string): (r: string)
    ensures |r| == if |raw| >= 4 then 4 else |raw|
    ensures raw == raw[..|raw| - |r|] + r
  {
    if |raw| >= 4 then raw[|raw| - 4..] else raw
  }

  /** The note appended to the order: "\nPayment: Card ending ****<last4> (mock)." */
  function PaymentNote(last4: string): string {
    "\nPayment: Card ending ****" + last4 + " (mock)."
  }

  /** The payment runs only for the card method with a non-empty card_number in the request. */
  predicate PaysByCard(paymentMethod: string, cardNumber: Option<string>) {
    paymentMethod == "card" && Truthy(cardNumber)
  }

  /** The order after the mock payment: paid, and the old notes (or "") followed by the note;
      no other field changes. */
  function ApplyCardPayment(o: Order, cardNumber: string): (r: Order)
    ensures r == o.(isPaid := true, notes := r.notes)
    ensures r.notes.Some?
    ensures r.notes.value == o.notes.GetOr("") + PaymentNote(Last4(StripSpaces(cardNumber)))
  {
    o.(isPaid := true, notes := Some(o.notes.GetOr("") + PaymentNote(Last4(StripSpaces(cardNumber)))))
  }

  /** The notes only grow: what was there before is a prefix of what is there after. */
  lemma PaymentAppendsToNotes(o: Order, cardNumber: string)
    ensures var before := o.notes.GetOr("");
            var after := ApplyCardPayment(o, cardNumber).notes.value;
            |after| > |before| && after[..|before|] == before
  {
  }

  /** No format check exists: a card number of spaces only is truthy, so the order is marked paid
      with an empty last4. */
  lemma BlankCardNumberStillPays(o: Order)
    ensures PaysByCard("card", Some("  "))
    ensures Last4(StripSpaces("  ")) == ""
    ensures ApplyCardPayment(o, "  ").isPaid
  {
  }
}
