/**
 * Classification of a row's ticker symbol into the user's two groups. The growth set
 * is consulted first, so a symbol listed in both groups is a growth symbol.
 */
module Classifier {
  import opened Wrappers
  import opened Text

  /** The two user-defined groups; a symbol in neither has no group (`null`). */
  datatype Group = Growth | Income

  /** Both groups' sets, as `getAllSymbols` returns them. */
  datatype AllSymbols = AllSymbols(growth: seq<string>, income: seq<string>)

  /**
   * The symbol a row shows: the trimmed, upper-cased text of its symbol cell. There is
   * none when the row has no symbol cell or the cell's text is blank, since the empty
   * string is falsy.
   */
  function SymbolOf(cell: Option<string>): (r: Option<string>)
    ensures r.Some? ==> cell.Some? && r.value != "" && IsUpper(r.value)
  {
    match cell
    case None => None
    case Some(text) =>
      UpperIsUpper(Trim(text));
      var symbol := Upper(Trim(text));
      if symbol == "" then None else Some(symbol)
  }

  /** The group of a symbol: growth if listed there, else income if listed there, else none. */
  function Classify(symbol: string, growth: seq<string>, income: seq<string>): (g: Option<Group>)
    ensures g == Some(Growth) <==> symbol in growth
    ensures g == Some(Income) <==> symbol !in growth && symbol in income
    ensures g == None <==> symbol !in growth && symbol !in income
  {
    if symbol in growth then Some(Growth)
    else if symbol in income then Some(Income)
    else None
  }

  /**
   * Cell texts that differ only in letter case show the same symbol, so "aapl" and
   * "AAPL" are classified alike.
   */
  lemma SymbolIgnoresCase(text1: string, text2: string)
    requires Upper(text1) == Upper(text2)
    ensures SymbolOf(Some(text1)) == SymbolOf(Some(text2))
  {
    TrimUpper(text1);
    TrimUpper(text2);
  }

  /** A cell's symbol does not change when the cell's text is written in capitals. */
  lemma SymbolOfUpper(text: string)
    ensures SymbolOf(Some(Upper(text))) == SymbolOf(Some(text))
  {
    UpperIsUpper(text);
    UpperOfUpper(Upper(text));
    SymbolIgnoresCase(Upper(text), text);
  }

  /** A row shows no symbol exactly when it has no symbol cell or the cell's text is blank. */
  lemma SymbolOfBlank(cell: Option<string>)
    ensures SymbolOf(cell).None? <==> cell.None? || Trim(cell.value) == ""
  {
  }

  /**
   * The symbol is the cell's text with its surrounding whitespace removed and its
   * letters upper-cased: a cell " aapl " shows "AAPL".
   */
  lemma SymbolOfPadded(pre: string, w: string, post: string)
    requires AllSpace(pre) && AllSpace(post)
    requires w != "" && !IsSpace(w[0]) && !IsSpace(w[|w| - 1])
    ensures SymbolOf(Some(pre + w + post)) == Some(Upper(w))
  {
    TrimOfPadded(pre, w, post);
  }

  /** A cell holding a bare upper-case ticker shows exactly that ticker. */
  lemma SymbolOfPlainText(w: string)
    requires w != "" && IsUpper(w) && NoSeparator(w)
    ensures SymbolOf(Some(w)) == Some(w)
  {
    TrimOfNoSeparator(w);
    UpperOfUpper(w);
  }
}
