/**
 * The invoice-number allocator (App.tsx `getNextInvoiceNumber` and
 * `commitAndIncrementInvoiceNumber`) over the key-value local store.
 */
module Allocator {
  import opened Wrappers
  import opened Text

  /** The local store: key to string value. */
  type Store = map<string, string>

  const SequenceKey := "keeper_invoice_sequence"

  /** The stored sequence plus one; 1 when the key is absent or empty; NaN when it does not parse. */
  function NextSequence(store: Store): Option<int> {
    if SequenceKey in store && store[SequenceKey] != "" then
      match ParseInt(store[SequenceKey])
      case Some(n) => Some(n + 1)
      case None => None
    else Some(1)
  }

  /** `INV-` followed by the number, zero-padded to at least three characters. */
  function FormatInvoiceNumber(n: Option<int>): string {
    "INV-" + PadStart(NumberToString(n), 3, '0')
  }

  /** The proposed next invoice number. Reading it writes nothing: the store is not an output. */
  function PeekNext(store: Store): (r: string)
    ensures StartsWith(r, "INV-") && |r| >= 7
    ensures SequenceKey !in store ==> r == "INV-001"
    ensures var d := NumberToString(NextSequence(store));
      && |r| == 4 + (if |d| >= 3 then |d| else 3)
      && r[4..] == seq(|r| - 4 - |d|, _ => '0') + d
  {
    FormatPadded(NumberToString(NextSequence(store)));
    assert SequenceKey !in store ==> PadStart("1", 3, '0') == "001";
    FormatInvoiceNumber(NextSequence(store))
  }

  /** `INV-` and the digits zero-padded in front to three characters, or left as they are when longer. */
  lemma FormatPadded(d: string)
    ensures var r := "INV-" + PadStart(d, 3, '0');
      && |r| == 4 + (if |d| >= 3 then |d| else 3)
      && r[4..] == seq(|r| - 4 - |d|, _ => '0') + d
  {
    PadStartZeros(d);
    var p := PadStart(d, 3, '0');
    assert ("INV-" + p)[4..] == p;
  }

  /**
   * Records a finalised invoice number: the value of its trailing digit run, or when it
   * has none, the sequence the allocator would have proposed.
   */
  function Commit(store: Store, invoiceNumber: string): (r: Store)
    ensures r.Keys == store.Keys + {SequenceKey}
    ensures forall k | k in store && k != SequenceKey :: r[k] == store[k]
    ensures var d := TrailingDigits(invoiceNumber);
      |d| > 0 ==> ParseInt(r[SequenceKey]) == Some(DigitsValue(d))
    ensures |TrailingDigits(invoiceNumber)| == 0 ==>
      r[SequenceKey] == NumberToString(NextSequence(store))
  {
    var d := TrailingDigits(invoiceNumber);
    var next := if |d| > 0 then NatToString(DigitsValue(d)) else NumberToString(NextSequence(store));
    ParseIntOfNatToString(DigitsValue(d));
    var r := store[SequenceKey := next];
    assert r[SequenceKey] == next;
    r
  }

  /** Leading zeros do not change the value of a digit run. */
  lemma {:induction false} DigitsValueZeros(z: nat, s: string)
    requires AllDigits(s)
    ensures AllDigits(seq(z, _ => '0') + s)
    ensures DigitsValue(seq(z, _ => '0') + s) == DigitsValue(s)
    decreases |s|
  {
    var t := seq(z, _ => '0') + s;
    if |s| == 0 {
      assert t == seq(z, _ => '0');
      ZerosValue(z);
    } else {
      assert t[..|t| - 1] == seq(z, _ => '0') + s[..|s| - 1];
      DigitsValueZeros(z, s[..|s| - 1]);
    }
  }

  lemma {:induction false} ZerosValue(z: nat)
    ensures AllDigits(seq(z, _ => '0'))
    ensures DigitsValue(seq(z, _ => '0')) == 0
    decreases z
  {
    if z > 0 {
      assert seq(z, _ => '0')[..z - 1] == seq(z - 1, _ => '0');
      ZerosValue(z - 1);
    }
  }

  /** A stored decimal `n` makes the allocator propose `n + 1`, while that is a safe integer. */
  lemma NextSequenceOfStored(store: Store, n: nat)
    requires n + 1 <= MaxSafeInteger
    requires SequenceKey in store && store[SequenceKey] == NatToString(n)
    ensures NextSequence(store) == Some(n + 1)
  {
    ParseIntOfNatToString(n);
    NextSequenceOfParsed(store, n);
  }

  /** Zero padding is a run of zeros in front of the digits. */
  lemma PadStartZeros(s: string)
    ensures var p := PadStart(s, 3, '0');
      p == seq(|p| - |s|, _ => '0') + s
  {
    var p := PadStart(s, 3, '0');
    var z := seq(|p| - |s|, _ => '0');
    assert p == p[..|p| - |s|] + p[|p| - |s|..];
    assert p[..|p| - |s|] == z;
  }

  /**
   * The digits of a proposed number denote the stored sequence plus one: the text after
   * `INV-` is the whole trailing digit run, its value is `n + 1`, and it is zero-padded to
   * three digits and no further.
   */
  lemma PeekNextValue(store: Store, n: nat)
    requires n + 1 <= MaxSafeInteger
    requires SequenceKey in store && store[SequenceKey] == NatToString(n)
    ensures var r := PeekNext(store);
      TrailingDigits(r) == r[4..] && DigitsValue(r[4..]) == n + 1
    ensures var r := PeekNext(store);
      |r[4..]| == (if |NatToString(n + 1)| >= 3 then |NatToString(n + 1)| else 3)
    ensures PeekNext(store) == "INV-" + PadStart(NatToString(n + 1), 3, '0')
  {
    PeekNextOfStored(store, n);
    var s := NatToString(n + 1);
    var p := PadStart(s, 3, '0');
    PadDigits(s);
    assert PeekNext(store)[4..] == p;
    TrailingDigitsSuffix("INV-", p);
  }

  /** The proposal for a stored `n` is `n + 1`, formatted. */
  lemma PeekNextOfStored(store: Store, n: nat)
    requires n + 1 <= MaxSafeInteger
    requires SequenceKey in store && store[SequenceKey] == NatToString(n)
    ensures PeekNext(store) == "INV-" + PadStart(NatToString(n + 1), 3, '0')
  {
    NextSequenceOfStored(store, n);
    assert NumberToString(Some(n + 1)) == NatToString(n + 1);
  }

  /** Zero padding keeps a digit run a digit run of the same value. */
  lemma PadDigits(s: string)
    requires AllDigits(s)
    ensures AllDigits(PadStart(s, 3, '0')) && DigitsValue(PadStart(s, 3, '0')) == DigitsValue(s)
  {
    var p := PadStart(s, 3, '0');
    PadStartZeros(s);
    DigitsValueZeros(|p| - |s|, s);
  }

  /** The trailing digit run of `prefix + digits` is all of `digits` when `prefix` ends in a non-digit. */
  lemma {:induction false} TrailingDigitsSuffix(prefix: string, digits: string)
    requires |prefix| > 0 && !IsDigit(prefix[|prefix| - 1]) && AllDigits(digits)
    ensures TrailingDigits(prefix + digits) == digits
    decreases |digits|
  {
    var s := prefix + digits;
    if |digits| > 0 {
      assert s[..|s| - 1] == prefix + digits[..|digits| - 1];
      TrailingDigitsSuffix(prefix, digits[..|digits| - 1]);
    } else {
      assert s == prefix;
    }
  }

  /** A stored value that parses to `n` makes the allocator propose `n + 1`. */
  lemma NextSequenceOfParsed(store: Store, n: int)
    requires SequenceKey in store && ParseInt(store[SequenceKey]) == Some(n)
    ensures NextSequence(store) == Some(n + 1)
  {
    ParseIntNonEmpty(store[SequenceKey]);
  }

  /** After committing a number with trailing digits of value `v`, the next proposal is `v + 1`. */
  lemma CommitThenPeek(store: Store, invoiceNumber: string)
    requires |TrailingDigits(invoiceNumber)| > 0
    requires DigitsValue(TrailingDigits(invoiceNumber)) + 1 <= MaxSafeInteger
    ensures PeekNext(Commit(store, invoiceNumber))
      == FormatInvoiceNumber(Some(DigitsValue(TrailingDigits(invoiceNumber)) + 1))
  {
    var r := Commit(store, invoiceNumber);
    NextSequenceOfParsed(r, DigitsValue(TrailingDigits(invoiceNumber)));
  }

  /** Committing the number just proposed advances the stored sequence by exactly one. */
  lemma CommitPeekAdvances(store: Store, n: nat)
    requires n + 1 <= MaxSafeInteger
    requires SequenceKey in store && store[SequenceKey] == NatToString(n)
    ensures Commit(store, PeekNext(store))[SequenceKey] == NatToString(n + 1)
  {
    PeekNextValue(store, n);
  }

  /** A number without trailing digits stores the proposal: the sequence still advances by one. */
  lemma CommitWithoutDigits(store: Store, invoiceNumber: string, n: nat)
    requires |TrailingDigits(invoiceNumber)| == 0
    requires n + 1 <= MaxSafeInteger
    requires SequenceKey in store && store[SequenceKey] == NatToString(n)
    ensures Commit(store, invoiceNumber)[SequenceKey] == NatToString(n + 1)
  {
    NextSequenceOfStored(store, n);
    assert NumberToString(Some(n + 1)) == NatToString(n + 1);
  }

  lemma TrailingDigitsOfSeven()
    ensures TrailingDigits("INV-007") == "007" && DigitsValue("007") == 7
  {
    var d := "007";
    assert AllDigits(d);
    assert "INV-007" == "INV-" + d;
    TrailingDigitsSuffix("INV-", d);
    assert d[..2] == "00";
    assert "00"[..1] == "0";
    assert "0"[..0] == "";
  }

  lemma FormatEight()
    ensures FormatInvoiceNumber(Some(8)) == "INV-008"
  {
    assert NatToString(8) == [DigitChar(8)];
    assert PadStart("8", 3, '0') == "008";
  }

  /** `commit("INV-007")` followed by a peek proposes `INV-008`. */
  lemma CommitSevenProposesEight(store: Store)
    ensures PeekNext(Commit(store, "INV-007")) == "INV-008"
  {
    TrailingDigitsOfSeven();
    CommitThenPeek(store, "INV-007");
    FormatEight();
  }
}
