/**
 * The texts of the worked examples, character by character.  Each lemma
 * takes a text given as a string literal to the facts about its characters
 * that the traces of the examples use.
 */
module SampleTexts {
  import opened Text
  import opened Regex
  import opened LineTexts

  predicate TotalAmountChars(s: string) {
    |s| == 23 && s[0] == 'T' && s[1] == 'o' && s[2] == 't' && s[3] == 'a' && s[4] == 'l' && s[5] == ' '
    && s[6] == 'A' && s[7] == 'm' && s[8] == 'o' && s[9] == 'u' && s[10] == 'n' && s[11] == 't' && s[12] == ':'
    && s[13] == ' ' && s[14] == '$' && s[15] == '1' && s[16] == ',' && s[17] == '2' && s[18] == '3'
    && s[19] == '4' && s[20] == '.' && s[21] == '5' && s[22] == '6'
  }

  lemma TotalAmountText(s: string)
    requires s == "Total Amount: $1,234.56"
    ensures TotalAmountChars(s) && StartsAt(s, 0, "total") && StartsAt(s, 6, "amount")
    ensures s[15..23] == "1,234.56"
  {
  }

  predicate AmountDueChars(s: string) {
    |s| == 30 && s[0] == 'A' && s[1] == 'm' && s[2] == 'o' && s[3] == 'u' && s[4] == 'n' && s[5] == 't' && s[6] == ' '
    && s[7] == 'd' && s[8] == 'u' && s[9] == 'e' && s[10] == ':' && s[11] == ' ' && s[12] == '1' && s[13] == '0'
    && s[14] == '.' && s[15] == '0' && s[16] == '0' && s[17] == '\n' && s[18] == 'T' && s[19] == 'o' && s[20] == 't'
    && s[21] == 'a' && s[22] == 'l' && s[23] == ':' && s[24] == ' ' && s[25] == '2' && s[26] == '0' && s[27] == '.'
    && s[28] == '0' && s[29] == '0'
  }

  lemma AmountDueText(s: string)
    requires s == "Amount due: 10.00\n" + "Total: 20.00"
    ensures AmountDueChars(s) && StartsAt(s, 0, "amount") && StartsAt(s, 7, "due") && StartsAt(s, 18, "total")
    ensures s[0..5] == "Amoun" && s[6..18] == " due: 10.00\n" && s[25..30] == "20.00" && s[12..17] == "10.00"
  {
  }

  /** The invoice-date line starts with the word `invoice` and a space. */
  lemma InvoiceWord(s: string, a: nat)
    requires a + 24 <= |s| && s[a..a + 24] == "Invoice Date: 01/01/2023"
    ensures StartsAt(s, a, "invoice") && s[a + 7] == ' '
  {
    SliceAt(s, a, a + 24, s[a..a + 24]);
  }

  /** `INVOICE` at the head of the first line is the word `invoice`, read without case. */
  lemma InvoiceUpper(s: string, a: nat)
    requires HashLine(s, a)
    ensures StartsAt(s, a, "invoice")
  {
  }
}
