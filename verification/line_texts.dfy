/**
 * The lines the worked examples are made of, as literal strings: the
 * characters of each line at any offset, and the slices of it the traces
 * of the examples cut out.
 */
module LineTexts {
  // ---------------------------------------------------------------------------
  // Lines shared by several texts, at any offset

  /** A slice known as a string gives the characters of `s` it covers. */
  lemma SliceAt(s: string, lo: nat, hi: nat, y: string)
    requires lo <= hi <= |s| && s[lo..hi] == y
    ensures forall j :: lo <= j < hi ==> s[j] == y[j - lo]
  {
  }

  /** A slice of a line known as a string is the same slice of `s`, shifted. */
  lemma Piece(s: string, a: nat, t: string, c: nat, d: nat)
    requires a + |t| <= |s| && s[a..a + |t|] == t && c <= d <= |t|
    ensures s[a + c..a + d] == t[c..d]
  {
    forall j | 0 <= j < d - c
      ensures s[a + c..a + d][j] == t[c..d][j]
    {
      assert s[a + c + j] == s[a..a + |t|][c + j];
    }
  }

  /** `s[a..]` starts with "INVOICE #12345" and a newline. */
  predicate HashLine(s: string, a: nat) {
    a + 15 <= |s| && s[a + 0] == 'I' && s[a + 1] == 'N' && s[a + 2] == 'V' && s[a + 3] == 'O'
    && s[a + 4] == 'I' && s[a + 5] == 'C' && s[a + 6] == 'E' && s[a + 7] == ' ' && s[a + 8] == '#'
    && s[a + 9] == '1' && s[a + 10] == '2' && s[a + 11] == '3' && s[a + 12] == '4' && s[a + 13] == '5'
    && s[a + 14] == '\n'
  }

  lemma HashLineChars(s: string, a: nat)
    requires a + 15 <= |s| && s[a..a + 15] == "INVOICE #12345\n"
    ensures HashLine(s, a)
  {
    SliceAt(s, a, a + 15, s[a..a + 15]);
  }

  /** `s[a..]` starts with "Date: 01/01/2023". */
  predicate DateLine(s: string, a: nat) {
    a + 16 <= |s| && s[a + 0] == 'D' && s[a + 1] == 'a' && s[a + 2] == 't' && s[a + 3] == 'e'
    && s[a + 4] == ':' && s[a + 5] == ' ' && s[a + 6] == '0' && s[a + 7] == '1' && s[a + 8] == '/'
    && s[a + 9] == '0' && s[a + 10] == '1' && s[a + 11] == '/' && s[a + 12] == '2' && s[a + 13] == '0'
    && s[a + 14] == '2' && s[a + 15] == '3'
  }

  lemma DateLineChars(s: string, a: nat)
    requires a + 16 <= |s| && s[a..a + 16] == "Date: 01/01/2023"
    ensures DateLine(s, a)
  {
    SliceAt(s, a, a + 16, s[a..a + 16]);
  }

  /** `s[a..]` starts with "Due Date: 01/31/2023" and a newline. */
  predicate DueDateLine(s: string, a: nat) {
    a + 21 <= |s| && s[a + 0] == 'D' && s[a + 1] == 'u' && s[a + 2] == 'e' && s[a + 3] == ' '
    && s[a + 4] == 'D' && s[a + 5] == 'a' && s[a + 6] == 't' && s[a + 7] == 'e' && s[a + 8] == ':'
    && s[a + 9] == ' ' && s[a + 10] == '0' && s[a + 11] == '1' && s[a + 12] == '/' && s[a + 13] == '3'
    && s[a + 14] == '1' && s[a + 15] == '/' && s[a + 16] == '2' && s[a + 17] == '0' && s[a + 18] == '2'
    && s[a + 19] == '3' && s[a + 20] == '\n'
  }

  lemma DueDateLineChars(s: string, a: nat)
    requires a + 21 <= |s| && s[a..a + 21] == "Due Date: 01/31/2023\n"
    ensures DueDateLine(s, a)
  {
    DueDateSlices(s, a);
    SliceAt(s, a, a + 10, "Due Date: ");
    SliceAt(s, a + 10, a + 20, "01/31/2023");
    SliceAt(s, a + 20, a + 21, "\n");
  }

  /** `s[a..]` starts with "Amount: $500.00". */
  predicate AmountLine(s: string, a: nat) {
    a + 15 <= |s| && s[a + 0] == 'A' && s[a + 1] == 'm' && s[a + 2] == 'o' && s[a + 3] == 'u'
    && s[a + 4] == 'n' && s[a + 5] == 't' && s[a + 6] == ':' && s[a + 7] == ' ' && s[a + 8] == '$'
    && s[a + 9] == '5' && s[a + 10] == '0' && s[a + 11] == '0' && s[a + 12] == '.' && s[a + 13] == '0'
    && s[a + 14] == '0'
  }

  lemma AmountLineChars(s: string, a: nat)
    requires a + 15 <= |s| && s[a..a + 15] == "Amount: $500.00"
    ensures AmountLine(s, a)
  {
    SliceAt(s, a, a + 15, s[a..a + 15]);
  }

  /** `s[a..]` starts with "From: Test Company Inc.". */
  predicate FromLine(s: string, a: nat) {
    a + 23 <= |s| && s[a + 0] == 'F' && s[a + 1] == 'r' && s[a + 2] == 'o' && s[a + 3] == 'm'
    && s[a + 4] == ':' && s[a + 5] == ' ' && s[a + 6] == 'T' && s[a + 7] == 'e' && s[a + 8] == 's'
    && s[a + 9] == 't' && s[a + 10] == ' ' && s[a + 11] == 'C' && s[a + 12] == 'o' && s[a + 13] == 'm'
    && s[a + 14] == 'p' && s[a + 15] == 'a' && s[a + 16] == 'n' && s[a + 17] == 'y' && s[a + 18] == ' '
    && s[a + 19] == 'I' && s[a + 20] == 'n' && s[a + 21] == 'c' && s[a + 22] == '.'
  }

  lemma FromLineChars(s: string, a: nat)
    requires a + 23 <= |s| && s[a..a + 23] == "From: Test Company Inc."
    ensures FromLine(s, a)
  {
    FromSlices(s, a);
    SliceAt(s, a, a + 12, "From: Test C");
    SliceAt(s, a + 12, a + 23, "ompany Inc.");
  }

  // ---------------------------------------------------------------------------
  // Pieces of the lines, cut where the traces need them

  lemma HashCut(t: string)
    requires t == "INVOICE #12345\n"
    ensures t[1..4] == "NVO" && t[5..15] == "CE #12345\n"
  {
    assert t == "I" + "NVO" + "I" + "CE #12345\n";
  }

  /** The slices of "INVOICE #12345\n" that the traces cut out, wherever it stands in `s`. */
  lemma HashSlices(s: string, a: nat)
    requires a + 15 <= |s| && s[a..a + 15] == "INVOICE #12345\n"
    ensures s[a + 1..a + 4] == "NVO" && s[a + 5..a + 15] == "CE #12345\n"
  {
    var t := s[a..a + 15];
    HashCut(t);
    Piece(s, a, t, 1, 4);
    Piece(s, a, t, 5, 15);
  }

  lemma DateCut1(t: string)
    requires t == "Date: 01/01/2023\n"
    ensures t[0..16] == "Date: 01/01/2023" && t[6..16] == "01/01/2023" && t[16..17] == "\n"
  {
    assert t == "Date: " + "01/01/2023" + "\n";
  }

  lemma DateCut2(t: string)
    requires t == "Date: 01/01/2023\n"
    ensures t[0..2] == "Da" && t[2..17] == "te: 01/01/2023\n"
  {
    assert t == "Da" + "te: 01/01/2023\n";
  }

  lemma DateCut3(t: string)
    requires t == "Date: 01/01/2023\n"
    ensures t[1..17] == "ate: 01/01/2023\n"
  {
    assert t == "D" + "ate: 01/01/2023\n";
  }

  lemma DateCut4(t: string)
    requires t == "Date: 01/01/2023\n"
    ensures t[3..17] == "e: 01/01/2023\n"
  {
    assert t == "Dat" + "e: 01/01/2023\n";
  }

  /** The slices of "Date: 01/01/2023\n" that the traces cut out, wherever it stands in `s`. */
  lemma DateSlices(s: string, a: nat)
    requires a + 17 <= |s| && s[a..a + 17] == "Date: 01/01/2023\n"
    ensures s[a..a + 16] == "Date: 01/01/2023" && s[a + 6..a + 16] == "01/01/2023" && s[a + 16..a + 17] == "\n"
    ensures s[a..a + 2] == "Da" && s[a + 1..a + 17] == "ate: 01/01/2023\n" && s[a + 2..a + 17] == "te: 01/01/2023\n"
    ensures s[a + 3..a + 17] == "e: 01/01/2023\n"
  {
    var t := s[a..a + 17];
    DateCut1(t);
    DateCut2(t);
    DateCut3(t);
    DateCut4(t);
    Piece(s, a, t, 0, 16);
    Piece(s, a, t, 6, 16);
    Piece(s, a, t, 16, 17);
    Piece(s, a, t, 0, 2);
    Piece(s, a, t, 1, 17);
    Piece(s, a, t, 2, 17);
    Piece(s, a, t, 3, 17);
  }

  lemma DueDateCut1(t: string)
    requires t == "Due Date: 01/31/2023\n"
    ensures t[0..10] == "Due Date: " && t[10..20] == "01/31/2023" && t[20..21] == "\n"
    ensures t[0..20] == "Due Date: 01/31/2023"
  {
    assert t == "Due Date: " + "01/31/2023" + "\n";
  }

  lemma DueDateCut2(t: string)
    requires t == "Due Date: 01/31/2023\n"
    ensures t[1..4] == "ue "
  {
    assert t == "D" + "ue " + "Date: 01/31/2023\n";
  }

  lemma DueDateCut3(t: string)
    requires t == "Due Date: 01/31/2023\n"
    ensures t[0..6] == "Due Da" && t[7..21] == "e: 01/31/2023\n" && t[0..5] == "Due D"
    ensures t[6..21] == "te: 01/31/2023\n"
  {
    assert t == "Due D" + "a" + "t" + "e: 01/31/2023\n";
  }

  /** The slices of "Due Date: 01/31/2023\n" that the traces cut out, wherever it stands in `s`. */
  lemma DueDateSlices(s: string, a: nat)
    requires a + 21 <= |s| && s[a..a + 21] == "Due Date: 01/31/2023\n"
    ensures s[a..a + 10] == "Due Date: " && s[a + 10..a + 20] == "01/31/2023" && s[a + 20..a + 21] == "\n"
    ensures s[a..a + 20] == "Due Date: 01/31/2023" && s[a + 1..a + 4] == "ue " && s[a..a + 6] == "Due Da"
    ensures s[a + 7..a + 21] == "e: 01/31/2023\n" && s[a..a + 5] == "Due D" && s[a + 6..a + 21] == "te: 01/31/2023\n"
  {
    var t := s[a..a + 21];
    DueDateCut1(t);
    DueDateCut2(t);
    DueDateCut3(t);
    Piece(s, a, t, 0, 10);
    Piece(s, a, t, 10, 20);
    Piece(s, a, t, 20, 21);
    Piece(s, a, t, 0, 20);
    Piece(s, a, t, 1, 4);
    Piece(s, a, t, 0, 6);
    Piece(s, a, t, 7, 21);
    Piece(s, a, t, 0, 5);
    Piece(s, a, t, 6, 21);
  }

  lemma AmountCut1(t: string)
    requires t == "Amount: $500.00\n"
    ensures t[0..15] == "Amount: $500.00" && t[9..15] == "500.00"
  {
    assert t == "Amount: $" + "500.00" + "\n";
  }

  lemma AmountCut2(t: string)
    requires t == "Amount: $500.00\n"
    ensures t[0..5] == "Amoun" && t[6..16] == ": $500.00\n"
  {
    assert t == "Amoun" + "t" + ": $500.00\n";
  }

  /** The slices of "Amount: $500.00\n" that the traces cut out, wherever it stands in `s`. */
  lemma AmountSlices(s: string, a: nat)
    requires a + 16 <= |s| && s[a..a + 16] == "Amount: $500.00\n"
    ensures s[a..a + 15] == "Amount: $500.00" && s[a + 9..a + 15] == "500.00" && s[a..a + 5] == "Amoun"
    ensures s[a + 6..a + 16] == ": $500.00\n"
  {
    var t := s[a..a + 16];
    AmountCut1(t);
    AmountCut2(t);
    Piece(s, a, t, 0, 15);
    Piece(s, a, t, 9, 15);
    Piece(s, a, t, 0, 5);
    Piece(s, a, t, 6, 16);
  }

  lemma FromCut1(t: string)
    requires t == "From: Test Company Inc."
    ensures t[0..8] == "From: Te" && t[9..19] == "t Company " && t[20..23] == "nc."
  {
    assert t == "From: Te" + "s" + "t Company " + "I" + "nc.";
  }

  lemma FromCut2(t: string)
    requires t == "From: Test Company Inc."
    ensures t[0..6] == "From: " && t[6..23] == "Test Company Inc."
  {
    assert t == "From: " + "Test Company Inc.";
  }

  lemma FromCut3(t: string)
    requires t == "From: Test Company Inc."
    ensures t[7..9] == "es"
  {
    assert t == "From: T" + "es" + "t Company Inc.";
  }

  lemma FromCut4(t: string)
    requires t == "From: Test Company Inc."
    ensures t[10..23] == " Company Inc."
  {
    assert t == "From: Test" + " Company Inc.";
  }

  lemma FromCut5(t: string)
    requires t == "From: Test Company Inc."
    ensures t[0..12] == "From: Test C" && t[12..23] == "ompany Inc."
  {
    assert t == "From: Test C" + "ompany Inc.";
  }

  /** The slices of "From: Test Company Inc." that the traces cut out, wherever it stands in `s`. */
  lemma FromSlices(s: string, a: nat)
    requires a + 23 <= |s| && s[a..a + 23] == "From: Test Company Inc."
    ensures s[a..a + 8] == "From: Te" && s[a + 9..a + 19] == "t Company " && s[a + 20..a + 23] == "nc."
    ensures s[a..a + 6] == "From: " && s[a + 7..a + 9] == "es" && s[a + 10..a + 23] == " Company Inc."
    ensures s[a + 6..a + 23] == "Test Company Inc." && s[a..a + 12] == "From: Test C" && s[a + 12..a + 23] == "ompany Inc."
  {
    var t := s[a..a + 23];
    FromCut1(t);
    FromCut2(t);
    FromCut3(t);
    FromCut4(t);
    FromCut5(t);
    Piece(s, a, t, 0, 8);
    Piece(s, a, t, 9, 19);
    Piece(s, a, t, 20, 23);
    Piece(s, a, t, 0, 6);
    Piece(s, a, t, 7, 9);
    Piece(s, a, t, 10, 23);
    Piece(s, a, t, 6, 23);
    Piece(s, a, t, 0, 12);
    Piece(s, a, t, 12, 23);
  }

  lemma InvoiceCut(t: string)
    requires t == "Invoice Date: 01/01/2023"
    ensures t[8..24] == "Date: 01/01/2023" && t[14..24] == "01/01/2023"
  {
    assert t == "Invoice " + "Date: " + "01/01/2023";
  }

  /** The slices of "Invoice Date: 01/01/2023" that the traces cut out, wherever it stands in `s`. */
  lemma InvoiceSlices(s: string, a: nat)
    requires a + 24 <= |s| && s[a..a + 24] == "Invoice Date: 01/01/2023"
    ensures s[a + 8..a + 24] == "Date: 01/01/2023" && s[a + 14..a + 24] == "01/01/2023"
  {
    var t := s[a..a + 24];
    InvoiceCut(t);
    Piece(s, a, t, 8, 24);
    Piece(s, a, t, 14, 24);
  }

  // ---------------------------------------------------------------------------
  // Whole texts, line by line

  /** The test fixture: five lines joined by newlines. */
  lemma FixtureLines(s: string)
    requires s == "INVOICE #12345\n" + "Date: 01/01/2023\n" + "Due Date: 01/31/2023\n" + "Amount: $500.00\n" + "From: Test Company Inc."
    ensures |s| == 92 && s[0..15] == "INVOICE #12345\n" && s[15..32] == "Date: 01/01/2023\n"
    ensures s[32..53] == "Due Date: 01/31/2023\n" && s[53..69] == "Amount: $500.00\n" && s[69..92] == "From: Test Company Inc."
  {
  }

  /** The characters of the fixture, line by line. */
  predicate FixtureChars(s: string) {
    |s| == 92 && HashLine(s, 0) && DateLine(s, 15) && s[31] == '\n' && DueDateLine(s, 32)
    && AmountLine(s, 53) && s[68] == '\n' && FromLine(s, 69)
  }

  lemma FixtureCharsHold(s: string)
    requires s == "INVOICE #12345\n" + "Date: 01/01/2023\n" + "Due Date: 01/31/2023\n" + "Amount: $500.00\n" + "From: Test Company Inc."
    ensures FixtureChars(s)
  {
    FixtureLines(s);
    HashLineChars(s, 0);
    DateSlices(s, 15);
    DateLineChars(s, 15);
    DueDateLineChars(s, 32);
    AmountSlices(s, 53);
    AmountLineChars(s, 53);
    SliceAt(s, 53, 69, "Amount: $500.00\n");
    FromLineChars(s, 69);
  }

  /** The slices of the first three lines of the fixture that the traces use. */
  lemma FixtureHead(s: string)
    requires s == "INVOICE #12345\n" + "Date: 01/01/2023\n" + "Due Date: 01/31/2023\n" + "Amount: $500.00\n" + "From: Test Company Inc."
    ensures s[1..4] == "NVO" && s[5..15] == "CE #12345\n" && s[15..17] == "Da" && s[16..32] == "ate: 01/01/2023\n"
    ensures s[17..32] == "te: 01/01/2023\n" && s[18..32] == "e: 01/01/2023\n" && s[21..31] == "01/01/2023"
    ensures s[32..37] == "Due D" && s[32..38] == "Due Da" && s[38..53] == "te: 01/31/2023\n"
    ensures s[39..53] == "e: 01/31/2023\n" && s[42..52] == "01/31/2023"
  {
    FixtureLines(s);
    HashSlices(s, 0);
    DateSlices(s, 15);
    DueDateSlices(s, 32);
  }

  /** The slices of the last two lines of the fixture that the traces use. */
  lemma FixtureTail(s: string)
    requires s == "INVOICE #12345\n" + "Date: 01/01/2023\n" + "Due Date: 01/31/2023\n" + "Amount: $500.00\n" + "From: Test Company Inc."
    ensures s[53..58] == "Amoun" && s[59..69] == ": $500.00\n" && s[62..68] == "500.00"
    ensures s[69..75] == "From: " && s[69..77] == "From: Te" && s[76..78] == "es" && s[78..88] == "t Company "
    ensures s[79..92] == " Company Inc." && s[89..92] == "nc." && s[75..92] == "Test Company Inc."
  {
    FixtureLines(s);
    AmountSlices(s, 53);
    FromSlices(s, 69);
  }

  /** A due date above the invoice date. */
  lemma DueThenInvoiceText(s: string)
    requires s == "Due Date: 01/31/2023\n" + "Invoice Date: 01/01/2023"
    ensures |s| == 45 && s[0..21] == "Due Date: 01/31/2023\n" && s[21..45] == "Invoice Date: 01/01/2023"
  {
  }
}
