/** Which texts read as which location, letter by letter: white space around a code and the case of its letters do not
    matter, and nothing else is accepted. */
module LocationText {
  import opened Sequences
  import opened Location

  const SmallLetters := "abcdefghijklmnopqrstuvwxyz"

  const CapitalLetters := "ABCDEFGHIJKLMNOPQRSTUVWXYZ"

  const Figures := "0123456789"

  const LevelLetters := "ABCDEFGHIJKL"

  /** c is the character d, or the small letter of the capital d. */
  predicate SameLetter(c: char, d: char) {
    c == d || exists k :: 0 <= k < 26 && c == SmallLetters[k] && d == CapitalLetters[k]
  }

  /** The text is the code with letters in either case. */
  predicate Recased(text: string, code: string) {
    |text| == |code| && forall i :: 0 <= i < |text| ==> SameLetter(text[i], code[i])
  }

  /** Space, tab, line feed, vertical tab, form feed, carriage return. */
  predicate Blank(s: string) { forall i :: 0 <= i < |s| ==> s[i] as int in {32, 9, 10, 11, 12, 13} }

  /** The code, letters in either case, with white space around it. */
  ghost predicate ReadsAs(input: string, code: string) {
    exists before, text, after ::
      input == before + text + after && Blank(before) && Blank(after) && Recased(text, code)
  }

  /** `baseCode`, character by character. */
  function CodeOf(l: Location): string {
    l.shelf + [Figures[l.moduleNumber / 10], Figures[l.moduleNumber % 10],
               'A', LevelLetters[l.level - 1], Figures[l.position]]
  }

  /** T takes; D and L leave. */
  function SuffixesOf(action: Option<CarAction>): set<string> {
    match action
    case None => {""}
    case Some(Take) => {"T"}
    case Some(Drop) => {"D", "L"}
  }

  // ---------- characters ----------

  lemma LetterTables(k: nat)
    ensures k < 26 ==> SmallLetters[k] == 'a' + k as char && CapitalLetters[k] == 'A' + k as char
    ensures k < 10 ==> Figures[k] == '0' + k as char
    ensures k < 12 ==> LevelLetters[k] == 'A' + k as char
  {
  }

  lemma UpperMeaning(c: char, d: char)
    requires IsAlnum(d)
    ensures SameLetter(c, d) <==> ToUpper(c) == d
  {
    if 'a' <= c <= 'z' && ToUpper(c) == d {
      LetterTables((c - 'a') as nat);
      assert c == SmallLetters[(c - 'a') as nat] && d == CapitalLetters[(c - 'a') as nat];
    }
    if k :| 0 <= k < 26 && c == SmallLetters[k] && d == CapitalLetters[k] { LetterTables(k); }
  }

  lemma RecasedMeaning(text: string, code: string)
    requires forall i :: 0 <= i < |code| ==> IsAlnum(code[i])
    ensures Recased(text, code) <==> Upper(text) == code
  {
    hide SameLetter, ToUpper, IsAlnum;
    forall i | 0 <= i < |text| && i < |code| ensures SameLetter(text[i], code[i]) <==> ToUpper(text[i]) == code[i] {
      UpperMeaning(text[i], code[i]);
    }
  }

  lemma PrintIsCode(l: Location)
    ensures Print(l) == CodeOf(l)
  {
    LetterTables(l.moduleNumber / 10);
    LetterTables(l.moduleNumber % 10);
    LetterTables(l.level - 1);
    LetterTables(l.position);
    hide SmallLetters, CapitalLetters, Figures, LevelLetters;
  }

  // ---------- white space ----------

  lemma SpaceMeaning(c: char)
    ensures IsSpace(c) <==> Blank([c])
  {
    assert [c][0] == c;
  }

  lemma {:induction false} LeftTrimmed(s: string) returns (before: string)
    ensures s == before + TrimLeft(s) && Blank(before)
    ensures TrimLeft(s) != "" ==> !Blank([TrimLeft(s)[0]])
  {
    if s != [] && IsSpace(s[0]) {
      SpaceMeaning(s[0]);
      var rest := LeftTrimmed(s[1..]);
      before := [s[0]] + rest;
    } else {
      before := [];
      if s != [] { SpaceMeaning(s[0]); }
    }
  }

  lemma {:induction false} RightTrimmed(s: string) returns (after: string)
    ensures s == TrimRight(s) + after && Blank(after)
    ensures TrimRight(s) != "" ==> !Blank([TrimRight(s)[|TrimRight(s)| - 1]])
    ensures s != "" && !Blank([s[0]]) ==> TrimRight(s) != "" && TrimRight(s)[0] == s[0]
  {
    if s != [] && IsSpace(s[|s| - 1]) {
      SpaceMeaning(s[|s| - 1]);
      var rest := RightTrimmed(s[..|s| - 1]);
      after := rest + [s[|s| - 1]];
    } else {
      after := [];
      if s != [] { SpaceMeaning(s[|s| - 1]); }
    }
  }

  /** What is left once the white space at both ends is gone. */
  lemma Trimmed(input: string) returns (before: string, text: string, after: string)
    ensures text == TrimRight(TrimLeft(input)) && input == before + text + after && Blank(before) && Blank(after)
    ensures text != "" ==> !Blank([text[0]]) && !Blank([text[|text| - 1]])
  {
    hide Blank;
    before := LeftTrimmed(input);
    after := RightTrimmed(TrimLeft(input));
    text := TrimRight(TrimLeft(input));
    assert TrimLeft(input) == text + after;
    if text != "" { assert TrimLeft(input)[0] == text[0]; }
  }

  lemma BlankAt(before: string, white: string, after: string, j: nat)
    requires Blank(white) && |before| <= j < |before| + |white|
    ensures Blank([(before + white + after)[j]])
  {
    assert (before + white + after)[j] == white[j - |before|];
  }

  /** There is one way to cut a text at its first and last characters that are not white space. */
  lemma CutOnce(before: string, text: string, after: string, before': string, text': string, after': string)
    requires before + text + after == before' + text' + after'
    requires Blank(before) && Blank(after) && Blank(before') && Blank(after') && text != "" && text' != ""
    requires !Blank([text[0]]) && !Blank([text[|text| - 1]]) && !Blank([text'[0]]) && !Blank([text'[|text'| - 1]])
    ensures text == text'
  {
    hide Blank;
    var s := before + text + after;
    var j, j' := |before| + |text| - 1, |before'| + |text'| - 1;
    assert s[|before|] == text[0] && s[|before'|] == text'[0];
    assert s[j] == text[|text| - 1] && s[j'] == text'[|text'| - 1];
    assert s == "" + before + (text + after) == "" + before' + (text' + after');
    assert s == before + text + after + "" == before' + text' + after' + "";
    if |before| < |before'| { BlankAt("", before', text' + after', |before|); }
    if |before'| < |before| { BlankAt("", before, text + after, |before'|); }
    if j < j' { BlankAt(before + text, after, "", j'); }
    if j' < j { BlankAt(before' + text', after', "", j); }
    assert text == s[|before|..j + 1] && text' == s[|before'|..j' + 1];
  }

  lemma NotBlank(c: char, d: char)
    requires SameLetter(c, d) && IsAlnum(d)
    ensures !Blank([c])
  {
    UpperMeaning(c, d);
    assert [c][0] == c;
  }

  /** Trimming and upper-casing yields a code exactly when the text reads as it. */
  lemma NormalizedExactly(input: string, code: string)
    requires code != "" && forall i :: 0 <= i < |code| ==> IsAlnum(code[i])
    ensures Normalized(input) == code <==> ReadsAs(input, code)
  {
    hide Blank, SameLetter, IsAlnum;
    var before, text, after := Trimmed(input);
    RecasedMeaning(text, code);
    if ReadsAs(input, code) {
      var b, t, a :| input == b + t + a && Blank(b) && Blank(a) && Recased(t, code);
      NotBlank(t[0], code[0]);
      NotBlank(t[|t| - 1], code[|code| - 1]);
      if text == "" {
        AllBlank(before, after, b, t, a);
      } else {
        CutOnce(before, text, after, b, t, a);
      }
    }
  }

  lemma AllBlank(before: string, after: string, b: string, t: string, a: string)
    requires before + "" + after == b + t + a && Blank(before) && Blank(after) && t != ""
    ensures Blank([t[0]])
  {
    var s := b + t + a;
    assert s == before + after && s[|b|] == t[0];
  }

  // ---------- what is accepted ----------

  lemma CodesAreCapital(l: Location, c: string)
    requires c in {"", "T", "D", "L"}
    ensures CodeOf(l) + c != "" && forall i :: 0 <= i < |CodeOf(l) + c| ==> IsAlnum((CodeOf(l) + c)[i])
  {
    PrintIsCode(l);
    PrintIsPlain(l);
    hide CodeOf;
  }

  lemma AcceptedReads(input: string, l: Location, action: Option<CarAction>)
    requires Parse(input) == Some(Parsed(l, action))
    ensures exists c :: c in SuffixesOf(action) && ReadsAs(input, CodeOf(l) + c)
  {
    hide CodeOf, ReadsAs, ParseNormalized, Normalized, Print;
    PrintIsCode(l);
    var letterL := PrintInvertsParseNormalized(Normalized(input));
    var c := ActionText(action, letterL);
    assert c in SuffixesOf(action);
    CodesAreCapital(l, c);
    NormalizedExactly(input, CodeOf(l) + c);
  }

  lemma ReadsAccepted(input: string, l: Location, action: Option<CarAction>, c: string)
    requires c in SuffixesOf(action) && ReadsAs(input, CodeOf(l) + c)
    ensures Parse(input) == Some(Parsed(l, action))
  {
    hide CodeOf, ReadsAs, ParseNormalized, Normalized, Print;
    PrintIsCode(l);
    CodesAreCapital(l, c);
    NormalizedExactly(input, CodeOf(l) + c);
    var letterL := c == "L";
    assert c == ActionText(action, letterL);
    ParseInvertsPrint(l, action, letterL);
    NormalizedPlain(CodeOf(l) + c);
  }

  /** A text reads as location l with the given action exactly when it is l's code, with T for taking, D or L for
      leaving and nothing for no action, its letters in either case and white space around it. */
  lemma ParseExactly(input: string, l: Location, action: Option<CarAction>)
    ensures Parse(input) == Some(Parsed(l, action)) <==>
            exists c :: c in SuffixesOf(action) && ReadsAs(input, CodeOf(l) + c)
  {
    hide CodeOf, ReadsAs, Parse, SuffixesOf;
    if Parse(input) == Some(Parsed(l, action)) { AcceptedReads(input, l, action); }
    if c :| c in SuffixesOf(action) && ReadsAs(input, CodeOf(l) + c) { ReadsAccepted(input, l, action, c); }
  }

  /** The last character that is not white space is t, d or l, in either case. */
  ghost predicate EndsInAction(input: string) {
    exists k :: 0 <= k < |input| && input[k] in {'T', 't', 'D', 'd', 'L', 'l'} && Blank(input[k + 1..])
  }

  lemma LettersNotBlank(c: char)
    ensures c in {'T', 't', 'D', 'd', 'L', 'l'} ==> !Blank([c])
    ensures ActionOf(ToUpper(c)).Some? <==> c in {'T', 't', 'D', 'd', 'L', 'l'}
  {
    assert [c][0] == c;
  }

  lemma LastCharacter(input: string, before: string, text: string, after: string)
    requires input == before + text + after && Blank(after) && text != "" && !Blank([text[|text| - 1]])
    ensures EndsInAction(input) <==> ActionOf(ToUpper(text[|text| - 1])).Some?
  {
    hide Blank;
    var j := |before| + |text| - 1;
    assert input[j] == text[|text| - 1] && input[j + 1..] == after;
    LettersNotBlank(input[j]);
    if k :| 0 <= k < |input| && input[k] in {'T', 't', 'D', 'd', 'L', 'l'} && Blank(input[k + 1..]) {
      LettersNotBlank(input[k]);
      assert input == input[..k + 1] + input[k + 1..] + "" == before + text + after + "";
      if k < j { BlankAt(input[..k + 1], input[k + 1..], "", j); }
      if j < k { BlankAt(before + text, after, "", k); }
    }
  }

  lemma OnlyWhiteSpace(input: string, before: string, after: string)
    requires input == before + after && Blank(before) && Blank(after)
    ensures !EndsInAction(input)
  {
    forall k | 0 <= k < |input| ensures input[k] !in {'T', 't', 'D', 'd', 'L', 'l'} {
      LettersNotBlank(input[k]);
      assert input[k] == if k < |before| then before[k] else after[k - |before|];
    }
  }

  /** The test for an action letter looks at that character and nothing else. */
  lemma SuffixExactly(input: string)
    ensures HasActionSuffix(input) <==> EndsInAction(input)
  {
    hide Blank, EndsInAction, TrimLeft, TrimRight, ToUpper, ActionOf;
    var before, text, after := Trimmed(input);
    if text == "" { OnlyWhiteSpace(input, before, after); } else { LastCharacter(input, before, text, after); }
  }
}
