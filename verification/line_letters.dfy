/**
 * Letters that do not occur in stretches of the example texts, so that a
 * pattern beginning with a word cannot start anywhere in them.
 */
module LineLetters {
  import opened Text

  // The line "INVOICE #12345" has none of these letters.
  lemma HashLineLetters1()
    ensures LacksLetter("INVOICE #12345\n", 'd') && LacksLetter("INVOICE #12345\n", 'p')
  {
  }

  lemma HashLineLetters2()
    ensures LacksLetter("INVOICE #12345\n", 'f') && LacksLetter("INVOICE #12345\n", 't')
  {
  }

  lemma HashLineLetters3()
    ensures LacksLetter("INVOICE #12345\n", 'a')
  {
  }

  // The line "Date: 01/01/2023" has none of these letters.
  lemma DateLineLetters1()
    ensures LacksLetter("Date: 01/01/2023\n", 'i') && LacksLetter("Date: 01/01/2023\n", 'b')
  {
  }

  lemma DateLineLetters2()
    ensures LacksLetter("Date: 01/01/2023\n", 's') && LacksLetter("Date: 01/01/2023\n", 'f')
  {
  }

  // The line "Due Date: 01/31/2023" has none of these letters.
  lemma DueLineLetters1()
    ensures LacksLetter("Due Date: 01/31/2023\n", 'i')
  {
  }

  lemma DueLineLetters2()
    ensures LacksLetter("Due Date: 01/31/2023\n", 'b')
  {
  }

  lemma DueLineLetters3()
    ensures LacksLetter("Due Date: 01/31/2023\n", 's')
  {
  }

  lemma DueLineLetters4()
    ensures LacksLetter("Due Date: 01/31/2023\n", 'f')
  {
  }

  // The line "Amount: $500.00" has none of these letters.
  lemma AmountLineLetters1()
    ensures LacksLetter("Amount: $500.00\n", 'i') && LacksLetter("Amount: $500.00\n", 'b')
  {
  }

  lemma AmountLineLetters2()
    ensures LacksLetter("Amount: $500.00\n", 's') && LacksLetter("Amount: $500.00\n", 'f')
  {
  }

  // The stretches of "INVOICE #12345" around its `I`s.
  lemma HashLineRestLetters1()
    ensures LacksLetter("NVO", 'i') && LacksLetter("NVO", 'b') && LacksLetter("NVO", 's')
    ensures LacksLetter("CE #12345\n", 'i') && LacksLetter("CE #12345\n", 'b')
  {
  }

  lemma HashLineRestLetters2()
    ensures LacksLetter("CE #12345\n", 's')
  {
  }

  // The stretches of "From: Test Company Inc." around its `s` and `I`.
  lemma FromLineRestLetters1()
    ensures LacksLetter("From: Te", 'i') && LacksLetter("From: Te", 'b') && LacksLetter("From: Te", 's')
    ensures LacksLetter("t Company ", 'i')
  {
  }

  lemma FromLineRestLetters2()
    ensures LacksLetter("t Company ", 'b') && LacksLetter("t Company ", 's')
  {
  }

  lemma FromLineRestLetters3()
    ensures LacksLetter("nc.", 'i') && LacksLetter("nc.", 'b') && LacksLetter("nc.", 's')
  {
  }

  // Stretches of "Date: 01/01/2023" after its first letters.
  lemma DateLineRestLetters1()
    ensures LacksLetter("ate: 01/01/2023\n", 'd') && LacksLetter("ate: 01/01/2023\n", 'p')
  {
  }

  lemma DateLineRestLetters2()
    ensures LacksLetter("te: 01/01/2023\n", 'a')
  {
  }

  lemma DateLineRestLetters3()
    ensures LacksLetter("e: 01/01/2023\n", 't') && LacksLetter("Da", 't')
  {
  }

  // Stretches of "Due Date: 01/31/2023" around its `a` and `t`.
  lemma DueLineRestLetters1()
    ensures LacksLetter("Due Da", 't') && LacksLetter("e: 01/31/2023\n", 't')
  {
  }

  lemma DueLineRestLetters3()
    ensures LacksLetter("Due D", 'a')
  {
  }

  lemma DueLineRestLetters2()
    ensures LacksLetter("te: 01/31/2023\n", 'a') && LacksLetter("ue ", 'd')
  {
  }

  // Stretches of the last two lines of the fixture around their `t`s.
  lemma LastLinesLetters1()
    ensures LacksLetter("Amoun", 't') && LacksLetter(": $500.00\n", 't') && LacksLetter("From: ", 't')
    ensures LacksLetter("es", 't')
  {
  }

  lemma LastLinesLetters2()
    ensures LacksLetter(" Company Inc.", 't')
  {
  }

  // Stretches of "Amount due: 10.00" around its `t`.
  lemma AmountDueLetters()
    ensures LacksLetter(" due: 10.00\n", 't')
  {
  }
}
