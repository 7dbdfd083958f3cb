/**
 * The settings panel's symbol lists: the text a user types is split on runs of commas
 * and whitespace, upper-cased, emptied pieces are dropped and the rest collected into
 * a set; the panel shows a set back as its elements joined by ", ".
 */
module SymbolList {
  import opened Text
  import opened OrderedSets

  /** A well-formed group member as the parser produces it. */
  predicate IsSymbolToken(s: string) {
    s != "" && IsUpper(s) && NoSeparator(s)
  }

  /** The longest prefix of `t` without a separator. */
  function LeadingWord(t: string): (w: string)
    ensures w <= t && NoSeparator(w)
    ensures |w| < |t| ==> IsSeparator(t[|w|])
  {
    if t == [] || IsSeparator(t[0]) then [] else [t[0]] + LeadingWord(t[1..])
  }

  /** `t` without its leading run of separators. */
  function SkipSeparators(t: string): (r: string)
    ensures |r| <= |t| && r == t[|t| - |r|..]
    ensures r == [] || !IsSeparator(r[0])
    ensures t != [] && IsSeparator(t[0]) ==> |r| < |t|
  {
    if t != [] && IsSeparator(t[0]) then SkipSeparators(t[1..]) else t
  }

  /**
   * `t.split(/[,\s]+/)`: the pieces between maximal runs of separators. The first and
   * the last piece are empty when `t` starts or ends with a separator.
   */
  function Split(t: string): (r: seq<string>)
    ensures |r| >= 1
    ensures forall k :: 0 <= k < |r| ==> NoSeparator(r[k])
    decreases |t|
  {
    var w := LeadingWord(t);
    if |w| == |t| then [t] else [w] + Split(SkipSeparators(t[|w|..]))
  }

  /**
   * `.map(s => s.trim().toUpperCase())`: one result per piece, in capitals; a piece
   * without separators is only upper-cased.
   */
  function Normalized(pieces: seq<string>): (r: seq<string>)
    ensures |r| == |pieces|
    ensures forall k :: 0 <= k < |r| ==> IsUpper(r[k])
    ensures forall k :: 0 <= k < |r| && NoSeparator(pieces[k]) ==> r[k] == Upper(pieces[k])
  {
    seq(|pieces|, k requires 0 <= k < |pieces| => Upper(Trim(pieces[k])))
  }

  /**
   * `.filter(s => s.length > 0)`: every non-empty element is kept as often as it occurs,
   * and no empty one is; `NonEmptyConcat` adds that the order is kept.
   */
  function NonEmpty(xs: seq<string>): (r: seq<string>)
    ensures forall k :: 0 <= k < |r| ==> r[k] != "" && r[k] in xs
    ensures forall s :: s != "" ==> multiset(r)[s] == multiset(xs)[s]
    ensures (forall k :: 0 <= k < |xs| ==> xs[k] != "") ==> r == xs
  {
    if xs == [] then []
    else
      var rest := NonEmpty(xs[1..]);
      NonEmptyStep(xs, rest);
      if xs[0] == "" then rest else [xs[0]] + rest
  }

  /** One step of the filter: dropping or keeping the head of `xs` in front of the filtered tail. */
  lemma NonEmptyStep(xs: seq<string>, rest: seq<string>)
    requires xs != []
    requires forall k :: 0 <= k < |rest| ==> rest[k] != "" && rest[k] in xs[1..]
    requires forall s :: s != "" ==> multiset(rest)[s] == multiset(xs[1..])[s]
    requires (forall k :: 0 <= k < |xs| - 1 ==> xs[1..][k] != "") ==> rest == xs[1..]
    ensures var r := if xs[0] == "" then rest else [xs[0]] + rest;
      && (forall k :: 0 <= k < |r| ==> r[k] != "" && r[k] in xs)
      && (forall s :: s != "" ==> multiset(r)[s] == multiset(xs)[s])
      && ((forall k :: 0 <= k < |xs| ==> xs[k] != "") ==> r == xs)
  {
    var r := if xs[0] == "" then rest else [xs[0]] + rest;
    NonEmptyStepMembers(xs, rest);
    NonEmptyStepCounts(xs, rest);
    if forall k :: 0 <= k < |xs| ==> xs[k] != "" {
      assert forall k :: 0 <= k < |xs| - 1 ==> xs[1..][k] == xs[k + 1];
      assert xs[0] != "" && rest == xs[1..];
      assert r == [xs[0]] + xs[1..];
    }
  }

  lemma NonEmptyStepMembers(xs: seq<string>, rest: seq<string>)
    requires xs != []
    requires forall k :: 0 <= k < |rest| ==> rest[k] != "" && rest[k] in xs[1..]
    ensures var r := if xs[0] == "" then rest else [xs[0]] + rest;
      forall k :: 0 <= k < |r| ==> r[k] != "" && r[k] in xs
  {
    var r := if xs[0] == "" then rest else [xs[0]] + rest;
    forall k | 0 <= k < |r| ensures r[k] != "" && r[k] in xs {
      if xs[0] != "" && k == 0 {
        assert r[k] == xs[0];
      } else {
        var e := if xs[0] == "" then rest[k] else rest[k - 1];
        assert r[k] == e && e in xs[1..];
        var t :| 0 <= t < |xs| - 1 && xs[1..][t] == e;
        assert xs[t + 1] == e;
      }
    }
  }

  lemma NonEmptyStepCounts(xs: seq<string>, rest: seq<string>)
    requires xs != []
    requires forall s :: s != "" ==> multiset(rest)[s] == multiset(xs[1..])[s]
    ensures var r := if xs[0] == "" then rest else [xs[0]] + rest;
      forall s :: s != "" ==> multiset(r)[s] == multiset(xs)[s]
  {
    assert multiset(xs) == multiset([xs[0]]) + multiset(xs[1..]) by {
      assert xs == [xs[0]] + xs[1..];
    }
    if xs[0] != "" {
      assert multiset([xs[0]] + rest) == multiset([xs[0]]) + multiset(rest);
    }
  }

  lemma UpperKeepsNoSeparator(s: string)
    requires NoSeparator(s)
    ensures NoSeparator(Upper(s))
  {
  }

  /** The tokens of the text in one panel field, in the order typed, repeats kept. */
  function Tokens(text: string): (r: seq<string>)
    ensures forall s :: s in r ==> IsSymbolToken(s)
  {
    var pieces := Split(Trim(text));
    NormalizedPieces(pieces);
    NonEmpty(Normalized(pieces))
  }

  /** A piece without separators normalizes to a token or to nothing. */
  lemma NormalizedPieces(pieces: seq<string>)
    requires forall k :: 0 <= k < |pieces| ==> NoSeparator(pieces[k])
    ensures forall s :: s in Normalized(pieces) && s != "" ==> IsSymbolToken(s)
  {
    var norm := Normalized(pieces);
    forall k | 0 <= k < |pieces| ensures norm[k] == "" || IsSymbolToken(norm[k]) {
      TrimOfNoSeparator(pieces[k]);
      UpperKeepsNoSeparator(pieces[k]);
      UpperIsUpper(pieces[k]);
    }
  }

  /** The set a panel field's text is saved as: `new Set(tokens)`. */
  function ParseSymbolList(text: string): (r: seq<string>)
    ensures Distinct(r)
    ensures forall s :: s in r ==> IsSymbolToken(s)
  {
    FromList(Tokens(text))
  }

  /**
   * The text the panel displays for a set: `Array.from(set).join(', ')`. It starts with
   * the first element and, when no element is empty, ends with the last element's last
   * character.
   */
  function Join(xs: seq<string>): (j: string)
    ensures xs == [] ==> j == ""
    ensures xs != [] ==> xs[0] <= j
    ensures xs != [] && (forall k :: 0 <= k < |xs| ==> xs[k] != "") ==>
      j != "" && j[0] == xs[0][0] && j[|j| - 1] == xs[|xs| - 1][|xs[|xs| - 1]| - 1]
  {
    if xs == [] then ""
    else if |xs| == 1 then xs[0]
    else
      assert forall k :: 0 <= k < |xs| - 1 ==> xs[1..][k] == xs[k + 1];
      xs[0] + ", " + Join(xs[1..])
  }

  lemma {:induction false} LeadingWordOfWordThenSeparator(w: string, u: string)
    requires NoSeparator(w)
    requires u == [] || IsSeparator(u[0])
    ensures LeadingWord(w + u) == w
  {
    if w != [] {
      assert (w + u)[1..] == w[1..] + u;
      LeadingWordOfWordThenSeparator(w[1..], u);
    }
  }

  /** A non-empty run of commas and whitespace: what one `/[,\s]+/` match consumes. */
  predicate SeparatorRun(sep: string) {
    sep != [] && forall i :: 0 <= i < |sep| ==> IsSeparator(sep[i])
  }

  lemma {:induction false} SkipRun(sep: string, rest: string)
    requires forall i :: 0 <= i < |sep| ==> IsSeparator(sep[i])
    requires rest == [] || !IsSeparator(rest[0])
    ensures SkipSeparators(sep + rest) == rest
  {
    if sep == [] {
      assert sep + rest == rest;
    } else {
      assert (sep + rest)[0] == sep[0];
      assert (sep + rest)[1..] == sep[1..] + rest;
      SkipRun(sep[1..], rest);
    }
  }

  /** A word, a separator run and the rest split into the word and the pieces of the rest. */
  lemma SplitStep(w: string, sep: string, rest: string)
    requires NoSeparator(w) && SeparatorRun(sep)
    requires rest == [] || !IsSeparator(rest[0])
    ensures Split(w + sep + rest) == [w] + Split(rest)
  {
    var u := sep + rest;
    var t := w + u;
    assert w + sep + rest == t;
    LeadingWordOfWordThenSeparator(w, u);
    assert t[|w|..] == u;
    SkipRun(sep, rest);
  }

  lemma {:induction false} SplitJoin(xs: seq<string>)
    requires xs != [] && forall s :: s in xs ==> IsSymbolToken(s)
    ensures Split(Join(xs)) == xs
  {
    if |xs| == 1 {
      assert xs[0] in xs;
      LeadingWordOfWordThenSeparator(xs[0], []);
      assert xs[0] + [] == xs[0];
    } else {
      var tail := xs[1..];
      assert xs[0] in xs;
      assert forall s :: s in tail ==> s in xs;
      JoinStartsWithWord(tail);
      var sep, rest := ", ", Join(tail);
      assert Join(xs) == xs[0] + sep + rest;
      assert SeparatorRun(sep);
      SplitStep(xs[0], sep, rest);
      SplitJoin(tail);
      HeadTail(xs);
    }
  }

  lemma JoinStartsWithWord(xs: seq<string>)
    requires xs != [] && forall s :: s in xs ==> IsSymbolToken(s)
    ensures Join(xs) != [] && !IsSeparator(Join(xs)[0])
  {
    assert xs[0] in xs;
    assert xs[0] <= Join(xs);
    assert Join(xs)[0] == xs[0][0];
  }

  lemma NormalizedOfTokens(xs: seq<string>)
    requires forall s :: s in xs ==> IsSymbolToken(s)
    ensures Normalized(xs) == xs
  {
    forall k | 0 <= k < |xs| ensures Upper(Trim(xs[k])) == xs[k] {
      assert xs[k] in xs;
      TrimOfNoSeparator(xs[k]);
      UpperOfUpper(xs[k]);
    }
  }

  lemma NonEmptyOfTokens(xs: seq<string>)
    requires forall s :: s in xs ==> IsSymbolToken(s)
    ensures NonEmpty(xs) == xs
  {
    assert forall k :: 0 <= k < |xs| ==> xs[k] in xs;
  }

  lemma TrimOfJoin(xs: seq<string>)
    requires xs != [] && forall s :: s in xs ==> IsSymbolToken(s)
    ensures Trim(Join(xs)) == Join(xs)
  {
    forall k | 0 <= k < |xs| ensures xs[k] != "" {
      assert xs[k] in xs;
    }
    assert xs[0] in xs && xs[|xs| - 1] in xs;
    TrimOfUnspacedEnds(Join(xs));
  }

  lemma TokensOfPieces(text: string, xs: seq<string>)
    requires Split(Trim(text)) == xs && Normalized(xs) == xs && NonEmpty(xs) == xs
    ensures Tokens(text) == xs
  {
  }

  /**
   * Round trip through the panel: re-reading the text the panel shows for a set of
   * well-formed symbols gives back the same set, in the same order.
   */
  lemma PanelRoundTrip(xs: seq<string>)
    requires Distinct(xs) && forall s :: s in xs ==> IsSymbolToken(s)
    ensures ParseSymbolList(Join(xs)) == xs
  {
    if xs == [] {
      assert Split(Trim("")) == [""];
      assert Normalized([""]) == [""];
      assert Tokens("") == [];
    } else {
      TrimOfJoin(xs);
      SplitJoin(xs);
      NormalizedOfTokens(xs);
      NonEmptyOfTokens(xs);
      TokensOfPieces(Join(xs), xs);
    }
  }

  lemma {:induction false} SplitOfSeparators(t: string)
    requires forall k :: 0 <= k < |t| ==> IsSeparator(t[k])
    ensures forall k :: 0 <= k < |Split(t)| ==> Split(t)[k] == ""
    decreases |t|
  {
    var w := LeadingWord(t);
    assert w == [];
    if |w| != |t| {
      var u := SkipSeparators(t[|w|..]);
      SplitOfSeparators(u);
    }
  }

  lemma {:induction false} NonEmptyOfBlanks(xs: seq<string>)
    requires forall k :: 0 <= k < |xs| ==> xs[k] == ""
    ensures NonEmpty(xs) == []
  {
    if xs != [] {
      NonEmptyOfBlanks(xs[1..]);
    }
  }

  lemma TrimOfSeparators(text: string)
    requires forall k :: 0 <= k < |text| ==> IsSeparator(text[k])
    ensures forall k :: 0 <= k < |Trim(text)| ==> IsSeparator(Trim(text)[k])
  {
    var s := TrimStart(text);
    var t := TrimEnd(s);
    assert Trim(text) == t;
    forall k | 0 <= k < |t| ensures IsSeparator(t[k]) {
      assert t[k] == s[k];
      assert s[k] == text[|text| - |s| + k];
    }
  }

  lemma NormalizedOfBlanks(pieces: seq<string>)
    requires forall k :: 0 <= k < |pieces| ==> pieces[k] == ""
    ensures forall k :: 0 <= k < |pieces| ==> Normalized(pieces)[k] == ""
  {
    assert Upper(Trim("")) == "";
  }

  lemma TokensOfBlankPieces(text: string)
    requires NonEmpty(Normalized(Split(Trim(text)))) == []
    ensures Tokens(text) == []
  {
  }

  /** Text made only of commas and whitespace (blank text included) saves the empty set. */
  lemma ParseOfSeparatorsOnly(text: string)
    requires forall k :: 0 <= k < |text| ==> IsSeparator(text[k])
    ensures ParseSymbolList(text) == []
  {
    TrimOfSeparators(text);
    SplitOfSeparators(Trim(text));
    NormalizedOfBlanks(Split(Trim(text)));
    NonEmptyOfBlanks(Normalized(Split(Trim(text))));
    TokensOfBlankPieces(text);
  }

  /** A single word parses to its upper-cased self, whatever case it was typed in. */
  lemma ParseOfOneWord(w: string)
    requires w != "" && NoSeparator(w)
    ensures ParseSymbolList(w) == [Upper(w)]
  {
    TrimOfNoSeparator(w);
    LeadingWordOfWordThenSeparator(w, []);
    assert w + [] == w;
    assert Split(w) == [w];
    assert Normalized([w]) == [Upper(w)];
  }

  /** Filtering a concatenation filters each part: `NonEmpty` keeps the order of the input. */
  lemma {:induction false} NonEmptyConcat(xs: seq<string>, ys: seq<string>)
    ensures NonEmpty(xs + ys) == NonEmpty(xs) + NonEmpty(ys)
  {
    if xs != [] {
      var zs := xs + ys;
      assert zs[0] == xs[0] && zs[1..] == xs[1..] + ys;
      NonEmptyConcat(xs[1..], ys);
      var tail := NonEmpty(xs[1..]) + NonEmpty(ys);
      if xs[0] == "" {
        calc {
          NonEmpty(zs);
          NonEmpty(zs[1..]);
          tail;
          NonEmpty(xs) + NonEmpty(ys);
        }
      } else {
        calc {
          NonEmpty(zs);
          [xs[0]] + NonEmpty(zs[1..]);
          [xs[0]] + tail;
          ([xs[0]] + NonEmpty(xs[1..])) + NonEmpty(ys);
          NonEmpty(xs) + NonEmpty(ys);
        }
      }
    } else {
      assert xs + ys == ys;
    }
  }

  /** Every element of `ws` is a word: a non-empty piece of text without separators. */
  predicate Words(ws: seq<string>) {
    forall k :: 0 <= k < |ws| ==> ws[k] != "" && NoSeparator(ws[k])
  }

  /** The words `ws` with the separator run `seps[k]` between `ws[k]` and `ws[k + 1]`. */
  function Interleave(ws: seq<string>, seps: seq<string>): (t: string)
    requires |ws| == |seps| + 1
    ensures Words(ws) ==> t != "" && t[0] == ws[0][0] && t[|t| - 1] == ws[|ws| - 1][|ws[|ws| - 1]| - 1]
    decreases |ws|
  {
    if |ws| == 1 then ws[0]
    else
      assert Words(ws) ==> Words(ws[1..]);
      ws[0] + seps[0] + Interleave(ws[1..], seps[1..])
  }

  lemma {:induction false} SplitInterleave(ws: seq<string>, seps: seq<string>)
    requires |ws| == |seps| + 1 && Words(ws)
    requires forall k :: 0 <= k < |seps| ==> SeparatorRun(seps[k])
    ensures Split(Interleave(ws, seps)) == ws
  {
    var t, e: string := Interleave(ws, seps), [];
    SplitInterleaveThen(ws, seps, e);
    assert t + e == t;
    assert ws + [] == ws;
  }

  /** Every character of `s` separates symbols; the empty text counts. */
  predicate AllSeparators(s: string) {
    forall i :: 0 <= i < |s| ==> IsSeparator(s[i])
  }

  /**
   * What a user types: any commas and whitespace, words in any case separated by runs
   * of commas and whitespace, any commas and whitespace. The field saves the set of
   * the upper-cased words, each once, in the order typed; the empty pieces a leading
   * or trailing comma leaves are dropped.
   */
  lemma {:induction false} ParseOfTypedText(pre: string, ws: seq<string>, seps: seq<string>, post: string)
    requires AllSeparators(pre) && AllSeparators(post)
    requires |ws| == |seps| + 1 && Words(ws)
    requires forall k :: 0 <= k < |seps| ==> SeparatorRun(seps[k])
    ensures ParseSymbolList(pre + Interleave(ws, seps) + post) == FromList(Normalized(ws))
  {
    var text := pre + Interleave(ws, seps) + post;
    var a, b := PiecesOfTypedText(pre, ws, seps, post);
    var norm := Normalized(ws);
    forall k | 0 <= k < |norm| ensures norm[k] != "" {
      assert norm[k] == Upper(ws[k]);
    }
    assert NonEmpty(norm) == norm;
    NonEmptyOfPadded(a, ws, b);
    ParseOfPieces(text, a + ws + b, norm);
  }

  /**
   * The pieces of typed text: the words, with one empty piece in front when commas
   * lead and one at the end when commas trail.
   */
  lemma {:induction false} PiecesOfTypedText(pre: string, ws: seq<string>, seps: seq<string>, post: string)
    returns (a: seq<string>, b: seq<string>)
    requires AllSeparators(pre) && AllSeparators(post)
    requires |ws| == |seps| + 1 && Words(ws)
    requires forall k :: 0 <= k < |seps| ==> SeparatorRun(seps[k])
    ensures Split(Trim(pre + Interleave(ws, seps) + post)) == a + ws + b
    ensures |a| <= 1 && |b| <= 1
    ensures forall k :: 0 <= k < |a| ==> a[k] == ""
    ensures forall k :: 0 <= k < |b| ==> b[k] == ""
  {
    var t := Interleave(ws, seps);
    assert !IsSeparator(ws[0][0]) && !IsSeparator(ws[|ws| - 1][|ws[|ws| - 1]| - 1]);
    TrimAround(pre, t, post);
    TrimmedSeparators(pre);
    TrimmedSeparators(post);
    a, b := SplitPadded(TrimStart(pre), ws, seps, TrimEnd(post));
  }

  /** Split of the words with separators on both sides. */
  lemma {:induction false} SplitPadded(p: string, ws: seq<string>, seps: seq<string>, q: string)
    returns (a: seq<string>, b: seq<string>)
    requires AllSeparators(p) && AllSeparators(q)
    requires |ws| == |seps| + 1 && Words(ws)
    requires forall k :: 0 <= k < |seps| ==> SeparatorRun(seps[k])
    ensures Split(p + Interleave(ws, seps) + q) == a + ws + b
    ensures |a| <= 1 && |b| <= 1
    ensures forall k :: 0 <= k < |a| ==> a[k] == ""
    ensures forall k :: 0 <= k < |b| ==> b[k] == ""
  {
    var t := Interleave(ws, seps);
    var u := t + q;
    assert u[0] == ws[0][0];
    SplitInterleaveThen(ws, seps, q);
    ConcatAssoc(p, t, q);
    SplitAfterSeparators(p, u);
    a := if p == [] then [] else [[]];
    b := if q == [] then [] else [[]];
    ConcatAssoc(a, ws, b);
  }

  lemma {:induction false} ParseOfPieces(text: string, pieces: seq<string>, toks: seq<string>)
    requires Split(Trim(text)) == pieces
    requires NonEmpty(Normalized(pieces)) == toks
    ensures ParseSymbolList(text) == FromList(toks)
  {
  }

  lemma {:induction false} TrimmedSeparators(s: string)
    requires AllSeparators(s)
    ensures AllSeparators(TrimStart(s)) && AllSeparators(TrimEnd(s))
  {
    var a, b := TrimStart(s), TrimEnd(s);
    forall i | 0 <= i < |a| ensures IsSeparator(a[i]) {
      assert a[i] == s[|s| - |a| + i];
    }
    forall i | 0 <= i < |b| ensures IsSeparator(b[i]) {
      assert b[i] == s[i];
    }
  }

  /** Separators in front of a word leave one empty piece before the word's pieces. */
  lemma {:induction false} SplitAfterSeparators(p: string, u: string)
    requires AllSeparators(p) && u != [] && !IsSeparator(u[0])
    ensures Split(p + u) == (if p == [] then [] else [[]]) + Split(u)
  {
    if p == [] {
      assert p + u == u;
    } else {
      assert SeparatorRun(p);
      var e: string := [];
      assert e + p + u == p + u;
      SplitStep(e, p, u);
    }
  }

  /** Separators after the last word leave one empty piece after the words. */
  lemma {:induction false} SplitInterleaveThen(ws: seq<string>, seps: seq<string>, post: string)
    requires |ws| == |seps| + 1 && Words(ws)
    requires forall k :: 0 <= k < |seps| ==> SeparatorRun(seps[k])
    requires AllSeparators(post)
    ensures Split(Interleave(ws, seps) + post) == ws + (if post == [] then [] else [[]])
    decreases |ws|
  {
    if |ws| == 1 {
      assert Interleave(ws, seps) == ws[0];
      SplitWordThen(ws[0], post);
      HeadTail(ws);
    } else {
      var more := ws[1..];
      assert Words(more);
      var rest := Interleave(more, seps[1..]);
      assert rest[0] == ws[1][0];
      assert Interleave(ws, seps) == ws[0] + seps[0] + rest;
      var tail: seq<string> := if post == [] then [] else [[]];
      SplitInterleaveThen(more, seps[1..], post);
      SplitWordsThen(ws[0], seps[0], rest, post, more, tail);
      HeadTail(ws);
      ConcatAssoc(ws[0] + seps[0], rest, post);
    }
  }

  lemma HeadTail<T>(xs: seq<T>)
    requires xs != []
    ensures [xs[0]] + xs[1..] == xs
  {
  }

  /** A word followed by separators only. */
  lemma {:induction false} SplitWordThen(w: string, post: string)
    requires w != [] && NoSeparator(w) && AllSeparators(post)
    ensures Split(w + post) == [w] + (if post == [] then [] else [[]])
  {
    if post == [] {
      LeadingWordOfWordThenSeparator(w, []);
      assert w + [] == w;
    } else {
      var e: string := [];
      SplitStep(w, post, e);
      assert w + post + e == w + post;
      assert Split(e) == [e];
    }
  }

  /** One word and one separator run in front of the rest keep the rest's pieces. */
  lemma {:induction false} SplitWordsThen(w: string, sep: string, rest: string, post: string, ws: seq<string>, tail: seq<string>)
    requires NoSeparator(w) && SeparatorRun(sep)
    requires rest != [] && !IsSeparator(rest[0])
    requires Split(rest + post) == ws + tail
    ensures Split(w + sep + rest + post) == ([w] + ws) + tail
  {
    ConcatAssoc(w + sep, rest, post);
    SplitStep(w, sep, rest + post);
    ConcatAssoc([w], ws, tail);
  }

  /** `Normalized` works piece by piece. */
  lemma {:induction false} NormalizedConcat(xs: seq<string>, ys: seq<string>)
    ensures Normalized(xs + ys) == Normalized(xs) + Normalized(ys)
  {
    NormalizedPrefix(xs, ys);
    NormalizedSuffix(xs, ys);
    ConcatOfParts(Normalized(xs + ys), Normalized(xs), Normalized(ys));
  }

  lemma {:induction false} NormalizedPrefix(xs: seq<string>, ys: seq<string>)
    ensures forall k :: 0 <= k < |xs| ==> Normalized(xs + ys)[k] == Normalized(xs)[k]
  {
    var zs := xs + ys;
    forall k | 0 <= k < |xs| ensures Normalized(zs)[k] == Normalized(xs)[k] {
      NormalizedAt(zs, k);
      NormalizedAt(xs, k);
      assert zs[k] == xs[k];
    }
  }

  lemma {:induction false} NormalizedSuffix(xs: seq<string>, ys: seq<string>)
    ensures forall k :: 0 <= k < |ys| ==> Normalized(xs + ys)[|xs| + k] == Normalized(ys)[k]
  {
    var zs := xs + ys;
    forall k | 0 <= k < |ys| ensures Normalized(zs)[|xs| + k] == Normalized(ys)[k] {
      NormalizedAt(zs, |xs| + k);
      NormalizedAt(ys, k);
      assert zs[|xs| + k] == ys[k];
    }
  }

  /** A sequence that agrees with `a` and then with `b` is `a + b`. */
  lemma ConcatOfParts<T>(l: seq<T>, a: seq<T>, b: seq<T>)
    requires |l| == |a| + |b|
    requires forall k :: 0 <= k < |a| ==> l[k] == a[k]
    requires forall k :: 0 <= k < |b| ==> l[|a| + k] == b[k]
    ensures l == a + b
  {
    forall k | 0 <= k < |l| ensures l[k] == (a + b)[k] {
      if k >= |a| {
        assert l[|a| + (k - |a|)] == b[k - |a|];
      }
    }
  }

  lemma NormalizedAt(xs: seq<string>, k: int)
    requires 0 <= k < |xs|
    ensures Normalized(xs)[k] == Upper(Trim(xs[k]))
  {
  }

  /** Empty pieces around the words' pieces vanish in the filter. */
  lemma {:induction false} NonEmptyOfPadded(a: seq<string>, ws: seq<string>, b: seq<string>)
    requires forall k :: 0 <= k < |a| ==> a[k] == ""
    requires forall k :: 0 <= k < |b| ==> b[k] == ""
    requires NonEmpty(Normalized(ws)) == Normalized(ws)
    ensures NonEmpty(Normalized(a + ws + b)) == Normalized(ws)
  {
    NormalizedConcat(a + ws, b);
    NormalizedConcat(a, ws);
    NormalizedOfBlanks(a);
    NormalizedOfBlanks(b);
    NonEmptyAround(Normalized(a), Normalized(ws), Normalized(b));
  }

  /** Dropping empty elements ignores empty elements around the middle part. */
  lemma {:induction false} NonEmptyAround(a: seq<string>, m: seq<string>, b: seq<string>)
    requires forall k :: 0 <= k < |a| ==> a[k] == ""
    requires forall k :: 0 <= k < |b| ==> b[k] == ""
    ensures NonEmpty(a + m + b) == NonEmpty(m)
  {
    NonEmptyConcat(a + m, b);
    NonEmptyConcat(a, m);
    NonEmptyOfBlanks(a);
    NonEmptyOfBlanks(b);
    var e: seq<string> := [];
    assert e + NonEmpty(m) + e == NonEmpty(m);
  }

  /** A single word, with any commas and whitespace around it, saves as its upper-case form. */
  lemma {:induction false} ParseOfPaddedWord(pre: string, w: string, post: string)
    requires AllSeparators(pre) && AllSeparators(post) && w != "" && NoSeparator(w)
    ensures ParseSymbolList(pre + w + post) == [Upper(w)]
  {
    assert Words([w]);
    assert Interleave([w], []) == w;
    ParseOfTypedText(pre, [w], [], post);
    var n := Normalized([w]);
    assert n[0] == Upper(w);
    assert n == [Upper(w)];
    assert Distinct(n);
  }

  /** Two words with different capitals, separated by one run, save as those two symbols. */
  lemma ParseOfTwoWords(a: string, sep: string, b: string)
    requires Words([a, b]) && SeparatorRun(sep) && Upper(a) != Upper(b)
    ensures ParseSymbolList(a + sep + b) == [Upper(a), Upper(b)]
  {
    ParseOfTwoWordsAsSet(a, sep, b);
    NormalizedPair(a, b);
  }

  lemma {:induction false} ParseOfTwoWordsAsSet(a: string, sep: string, b: string)
    requires Words([a, b]) && SeparatorRun(sep)
    ensures ParseSymbolList(a + sep + b) == FromList(Normalized([a, b]))
  {
    var text := a + sep + b;
    InterleavePair(a, sep, b);
    ParseOfTypedText("", [a, b], [sep], "");
    assert "" + text + "" == text;
  }

  lemma InterleavePair(a: string, sep: string, b: string)
    ensures Interleave([a, b], [sep]) == a + sep + b
  {
    assert [a, b][1..] == [b];
  }

  lemma {:induction false} NormalizedPair(a: string, b: string)
    requires NoSeparator(a) && NoSeparator(b) && Upper(a) != Upper(b)
    ensures FromList(Normalized([a, b])) == [Upper(a), Upper(b)]
  {
    var norm := Normalized([a, b]);
    assert norm[0] == Upper(a) && norm[1] == Upper(b);
    PairOf(norm, Upper(a), Upper(b));
    FromListPair(Upper(a), Upper(b));
  }

  lemma PairOf(xs: seq<string>, u: string, v: string)
    requires |xs| == 2 && xs[0] == u && xs[1] == v
    ensures xs == [u, v]
  {
  }

  lemma FromListPair(u: string, v: string)
    requires u != v
    ensures FromList([u, v]) == [u, v]
  {
    assert Distinct([u, v]);
  }

  /** Lower-case input with a comma and extra spaces: "aapl,  msft" saves {AAPL, MSFT}. */
  lemma {:induction false} ParseExample()
    ensures ParseSymbolList("aapl,  msft") == ["AAPL", "MSFT"]
  {
    var a, sep, b := "aapl", ",  ", "msft";
    assert Words([a, b]) && SeparatorRun(sep);
    assert a + sep + b == "aapl,  msft";
    var u, v := Upper(a), Upper(b);
    assert u[0] == 'A' && u[1] == 'A' && u[2] == 'P' && u[3] == 'L';
    assert v[0] == 'M' && v[1] == 'S' && v[2] == 'F' && v[3] == 'T';
    assert u == "AAPL" && v == "MSFT";
    ParseOfTwoWords(a, sep, b);
  }

  /** Two words with different capitals and any commas and whitespace around them. */
  lemma {:induction false} ParseOfPaddedPair(pre: string, a: string, sep: string, b: string, post: string)
    requires AllSeparators(pre) && AllSeparators(post)
    requires Words([a, b]) && SeparatorRun(sep) && Upper(a) != Upper(b)
    ensures ParseSymbolList(pre + (a + sep + b) + post) == [Upper(a), Upper(b)]
  {
    var ws, seps := [a, b], [sep];
    InterleavePair(a, sep, b);
    ParseOfTypedText(pre, ws, seps, post);
    NormalizedPair(a, b);
  }

  /** A leading comma leaves an empty piece that is dropped: ",aapl" saves {AAPL}. */
  lemma {:induction false} LeadingCommaExample()
    ensures ParseSymbolList(",aapl") == ["AAPL"]
  {
    var pre, w, post := ",", "aapl", "";
    assert NoSeparator(w);
    assert pre + w + post == ",aapl";
    var u := Upper(w);
    assert u[0] == 'A' && u[1] == 'A' && u[2] == 'P' && u[3] == 'L';
    assert u == "AAPL";
    ParseOfPaddedWord(pre, w, post);
  }

  /** A trailing comma leaves an empty piece that is dropped: "AAPL, TSLA," saves {AAPL, TSLA}. */
  lemma {:induction false} TrailingCommaExample()
    ensures ParseSymbolList("AAPL, TSLA,") == ["AAPL", "TSLA"]
  {
    var pre, a, sep, b, post := "", "AAPL", ", ", "TSLA", ",";
    assert Words([a, b]) && SeparatorRun(sep) && AllSeparators(post);
    assert pre + (a + sep + b) + post == "AAPL, TSLA,";
    var u, v := Upper(a), Upper(b);
    assert u[0] == 'A' && u[1] == 'A' && u[2] == 'P' && u[3] == 'L';
    assert v[0] == 'T' && v[1] == 'S' && v[2] == 'L' && v[3] == 'A';
    assert u == "AAPL" && v == "TSLA";
    ParseOfPaddedPair(pre, a, sep, b, post);
  }

  /**
   * The words of a text: its maximal runs of characters other than commas and
   * whitespace, in order. A reference for the parser that knows nothing of `trim`,
   * `split`, `map` or `filter`.
   */
  function WordsOf(t: string): (ws: seq<string>)
    ensures Words(ws)
    decreases |t|
  {
    if t == [] then []
    else if IsSeparator(t[0]) then WordsOf(t[1..])
    else
      var w := LeadingWord(t);
      assert w != [];
      var rest := WordsOf(t[|w|..]);
      assert forall k :: 1 <= k < |rest| + 1 ==> ([w] + rest)[k] == rest[k - 1];
      [w] + rest
  }

  /**
   * Every text parses to the set of its words in capitals, each once, in the order of
   * their first occurrence: whatever commas and whitespace lead, trail or separate them.
   */
  lemma {:induction false} ParseIsWordsOf(text: string)
    ensures ParseSymbolList(text) == FromList(Normalized(WordsOf(text)))
  {
    var t := Trim(text);
    var pieces := Split(t);
    NormalizedNonEmpty(pieces);
    SplitWords(t);
    WordsOfTrim(text);
  }

  /** The non-empty pieces of `split(/[,\s]+/)` are exactly the words. */
  lemma {:induction false} SplitWords(t: string)
    ensures NonEmpty(Split(t)) == WordsOf(t)
    decreases |t|
  {
    var w := LeadingWord(t);
    if |w| == |t| {
      assert w == t;
      if t != [] {
        assert t[|w|..] == [];
      }
    } else {
      var r := t[|w|..];
      var s := SkipSeparators(r);
      assert Split(t) == [w] + Split(s);
      SplitWords(s);
      NonEmptyConcat([w], Split(s));
      WordsOfSkip(r);
      if w == [] {
        assert r == t;
      } else {
        assert w[0] == t[0];
      }
    }
  }

  /** Leading separators contain no word. */
  lemma {:induction false} WordsOfSkip(u: string)
    ensures WordsOf(SkipSeparators(u)) == WordsOf(u)
    decreases |u|
  {
    if u != [] && IsSeparator(u[0]) {
      WordsOfSkip(u[1..]);
    }
  }

  /** Upper-casing keeps a piece empty or non-empty, so it commutes with the filter. */
  lemma {:induction false} NormalizedNonEmpty(ps: seq<string>)
    requires forall k :: 0 <= k < |ps| ==> NoSeparator(ps[k])
    ensures NonEmpty(Normalized(ps)) == Normalized(NonEmpty(ps))
    decreases |ps|
  {
    if ps != [] {
      var p, rest := ps[0], ps[1..];
      HeadTail(ps);
      var u := Upper(p);
      NormalizedOne(p);
      NormalizedConcat([p], rest);
      NonEmptyConcat([u], Normalized(rest));
      NonEmptyConcat([p], rest);
      NormalizedNonEmpty(rest);
      if p != "" {
        NormalizedConcat([p], NonEmpty(rest));
      }
    }
  }

  lemma NormalizedOne(p: string)
    requires NoSeparator(p)
    ensures Normalized([p]) == [Upper(p)]
  {
    var n := Normalized([p]);
    assert n[0] == Upper(p);
  }

  /** Whitespace that `trim` removes holds no word. */
  lemma {:induction false} WordsOfTrim(text: string)
    ensures WordsOf(Trim(text)) == WordsOf(text)
  {
    var t := TrimStart(text);
    var a := |text| - |t|;
    SpacesAreSeparators(text[..a]);
    CutAt(text, a);
    WordsAfterSeparators(text[..a], t);
    var r := TrimEnd(t);
    SpacesAreSeparators(t[|r|..]);
    CutAt(t, |r|);
    WordsBeforeSeparators(r, t[|r|..]);
  }

  lemma CutAt<T>(s: seq<T>, a: nat)
    requires a <= |s|
    ensures s == s[..a] + s[a..]
  {
  }

  lemma SpacesAreSeparators(s: string)
    requires AllSpace(s)
    ensures AllSeparators(s)
  {
  }

  lemma {:induction false} WordsAfterSeparators(p: string, x: string)
    requires AllSeparators(p)
    ensures WordsOf(p + x) == WordsOf(x)
    decreases |p|
  {
    if p != [] {
      assert (p + x)[1..] == p[1..] + x;
      WordsAfterSeparators(p[1..], x);
    } else {
      assert p + x == x;
    }
  }

  lemma {:induction false} WordsBeforeSeparators(x: string, y: string)
    requires AllSeparators(y)
    ensures WordsOf(x + y) == WordsOf(x)
    decreases |x|
  {
    if x == [] {
      assert x + y == y;
      WordsAfterSeparators(y, []);
      assert y + [] == y;
    } else if IsSeparator(x[0]) {
      assert (x + y)[1..] == x[1..] + y;
      WordsBeforeSeparators(x[1..], y);
    } else {
      var w := LeadingWord(x);
      LeadingWordThen(x, y);
      assert w != [];
      assert (x + y)[|w|..] == x[|w|..] + y;
      WordsBeforeSeparators(x[|w|..], y);
    }
  }

  /** A word ends where a separator or the text ends. */
  lemma {:induction false} LeadingWordThen(x: string, y: string)
    requires y == [] || IsSeparator(y[0])
    ensures LeadingWord(x + y) == LeadingWord(x)
    decreases |x|
  {
    if x == [] {
      assert x + y == y;
    } else if !IsSeparator(x[0]) {
      assert (x + y)[1..] == x[1..] + y;
      LeadingWordThen(x[1..], y);
    }
  }
}
