/** Spelling of long numbers for speech: the digit grouping of server/sailly_gemini_tts.py. */
module DigitSpelling {
  import opened Texts

  type Digit = n: int | 0 <= n < 10

  function DigitWord(d: Digit): string {
    match d
    case 0 => "null"
    case 1 => "eins"
    case 2 => "zwei"
    case 3 => "drei"
    case 4 => "vier"
    case 5 => "fünf"
    case 6 => "sechs"
    case 7 => "sieben"
    case 8 => "acht"
    case _ => "neun"
  }

  function Words(digits: seq<Digit>): (ws: seq<string>)
    ensures |ws| == |digits|
  {
    seq(|digits|, i requires 0 <= i < |digits| => DigitWord(digits[i]))
  }

  /** Groups of four from the left, the rest in the last one. */
  function Fours(words: seq<string>): seq<seq<string>> {
    if words == [] then []
    else if |words| <= 4 then [words]
    else [words[..4]] + Fours(words[4..])
  }

  /** The cadence: a leading group of three in front of long numbers. */
  function Grouped(words: seq<string>): seq<seq<string>> {
    if |words| > 6 then [words[..3]] + Fours(words[3..]) else Fours(words)
  }

  function Spoken(groups: seq<seq<string>>): (parts: seq<string>)
    ensures |parts| == |groups|
  {
    seq(|groups|, i requires 0 <= i < |groups| => Join(" ", groups[i]))
  }

  function Spelling(digits: seq<Digit>): string {
    Join(", ", Spoken(Grouped(Words(digits))))
  }

  lemma FoursStep(words: seq<string>, i: nat, take: nat)
    requires i < |words| && take == if |words| - i < 4 then |words| - i else 4
    ensures Fours(words[i..]) == [words[i..i + take]] + Fours(words[i + take..])
  {
    var rest := words[i..];
    assert rest[..take] == words[i..i + take] && rest[take..] == words[i + take..];
    if |rest| <= 4 {
      assert words[i + take..] == [] && words[i..i + take] == rest;
    }
  }

  method SpellOut(digits: seq<Digit>) returns (s: string)
    ensures s == Spelling(digits)
  {
    var words := Words(digits);
    var groups: seq<string> := [];
    ghost var cut: seq<seq<string>> := [];
    var i, n := 0, |words|;
    if n > 6 {
      groups := groups + [Join(" ", words[i..i + 3])];
      cut := [words[..3]];
      i := i + 3;
    }
    while i < n
      invariant 0 <= i <= n
      invariant groups == Spoken(cut)
      invariant cut + Fours(words[i..]) == Grouped(words)
    {
      var take := if n - i < 4 then n - i else 4;
      ghost var group := words[i..i + take];
      FoursStep(words, i, take);
      assert cut + ([group] + Fours(words[i + take..])) == cut + [group] + Fours(words[i + take..]);
      groups := groups + [Join(" ", words[i..i + take])];
      cut := cut + [group];
      i := i + take;
    }
    assert cut + [] == cut;
    return Join(", ", groups);
  }
}

/** The spelling can be read back, so it is injective. */
module DigitSpellingLaws {
  import opened Texts
  import opened DigitSpelling

  function Flatten(groups: seq<seq<string>>): seq<string> {
    if groups == [] then [] else groups[0] + Flatten(groups[1..])
  }

  // ----- Cadence -----

  lemma {:induction false} FoursAreFours(words: seq<string>)
    ensures Flatten(Fours(words)) == words
    ensures forall i :: 0 <= i < |Fours(words)| ==> 1 <= |Fours(words)[i]| <= 4
    ensures forall i :: 0 <= i < |Fours(words)| - 1 ==> |Fours(words)[i]| == 4
    ensures |Fours(words)| == (|words| + 3) / 4
  {
    if |words| > 4 {
      FoursAreFours(words[4..]);
      assert ([words[..4]] + Fours(words[4..]))[1..] == Fours(words[4..]);
    } else if words != [] {
      assert [words][1..] == [];
    }
  }

  /** The groups are the words in order; each holds one to four, all but the last exactly four, save for a
      leading three when there are more than six; a number of five or more digits gets at least one pause. */
  lemma {:induction false} Cadence(words: seq<string>)
    ensures var gs := Grouped(words);
            && Flatten(gs) == words
            && (forall i :: 0 <= i < |gs| ==> 1 <= |gs[i]| <= 4)
            && (|words| > 6 ==> |gs| > 1 && |gs[0]| == 3)
            && (forall i :: (if |words| > 6 then 1 else 0) <= i < |gs| - 1 ==> |gs[i]| == 4)
            && (|words| >= 5 ==> |gs| >= 2)
  {
    FoursAreFours(words);
    if |words| > 6 {
      FoursAreFours(words[3..]);
      assert ([words[..3]] + Fours(words[3..]))[1..] == Fours(words[3..]);
    }
  }

  // ----- Reading back -----

  predicate IsSeparator(c: char) {
    c == ' ' || c == ','
  }

  predicate PlainWord(w: string) {
    w != "" && forall i :: 0 <= i < |w| ==> !IsSeparator(w[i])
  }

  /** The text split at commas and blanks; `word` is the token being read. */
  function Tokens(s: string, word: string): seq<string> {
    if s == "" then (if word == "" then [] else [word])
    else if IsSeparator(s[0]) then (if word == "" then [] else [word]) + Tokens(s[1..], "")
    else Tokens(s[1..], word + [s[0]])
  }

  function ReadWord(w: string): Digit {
    if w == "null" then 0 else if w == "eins" then 1 else if w == "zwei" then 2 else if w == "drei" then 3
    else if w == "vier" then 4 else if w == "fünf" then 5 else if w == "sechs" then 6 else if w == "sieben" then 7
    else if w == "acht" then 8 else 9
  }

  function ReadBack(s: string): seq<Digit> {
    var ts := Tokens(s, "");
    seq(|ts|, i requires 0 <= i < |ts| => ReadWord(ts[i]))
  }

  lemma WordsAreReadable(d: Digit)
    ensures PlainWord(DigitWord(d)) && ReadWord(DigitWord(d)) == d
  {
    var w := DigitWord(d);
    assert w[0] == ['n', 'e', 'z', 'd', 'v', 'f', 's', 's', 'a', 'n'][d];
    assert w[1] == ['u', 'i', 'w', 'r', 'i', 'ü', 'e', 'i', 'c', 'e'][d];
  }

  lemma {:induction false} TokensOfWord(w: string, word: string, rest: string)
    requires forall i :: 0 <= i < |w| ==> !IsSeparator(w[i])
    ensures Tokens(w + rest, word) == Tokens(rest, word + w)
  {
    if w == "" {
      assert w + rest == rest && word + w == word;
    } else {
      assert (w + rest)[1..] == w[1..] + rest;
      assert word + [w[0]] + w[1..] == word + w;
      TokensOfWord(w[1..], word + [w[0]], rest);
    }
  }

  /** What may follow a word or a group. */
  predicate Ends(rest: string) {
    rest == "" || IsSeparator(rest[0])
  }

  lemma TokensAfterWord(w: string, rest: string)
    requires PlainWord(w) && Ends(rest)
    ensures Tokens(w + rest, "") == [w] + Tokens(rest, "")
  {
    TokensOfWord(w, "", rest);
    assert "" + w == w;
  }

  lemma {:induction false} TokensOfGroup(g: seq<string>, rest: string)
    requires g != [] && (forall i :: 0 <= i < |g| ==> PlainWord(g[i])) && Ends(rest)
    ensures Tokens(Join(" ", g) + rest, "") == g + Tokens(rest, "")
  {
    if |g| == 1 {
      TokensAfterWord(g[0], rest);
    } else {
      var tail := Join(" ", g[1..]) + rest;
      assert Join(" ", g) + rest == g[0] + (" " + tail);
      TokensAfterWord(g[0], " " + tail);
      assert (" " + tail)[1..] == tail;
      TokensOfGroup(g[1..], rest);
      assert g == [g[0]] + g[1..];
    }
  }

  predicate PlainGroups(gs: seq<seq<string>>) {
    forall i :: 0 <= i < |gs| ==> gs[i] != [] && forall j :: 0 <= j < |gs[i]| ==> PlainWord(gs[i][j])
  }

  lemma {:induction false} TokensOfGroups(gs: seq<seq<string>>)
    requires PlainGroups(gs)
    ensures Tokens(Join(", ", Spoken(gs)), "") == Flatten(gs)
  {
    if |gs| == 1 {
      TokensOfGroup(gs[0], "");
      assert Join(" ", gs[0]) + "" == Join(" ", gs[0]);
      assert gs[1..] == [];
    } else if |gs| > 1 {
      var tail := Join(", ", Spoken(gs[1..]));
      assert Spoken(gs)[1..] == Spoken(gs[1..]);
      assert Join(", ", Spoken(gs)) == Join(" ", gs[0]) + (", " + tail);
      TokensOfGroup(gs[0], ", " + tail);
      assert (", " + tail)[1..] == " " + tail && (" " + tail)[1..] == tail;
      TokensOfGroups(gs[1..]);
    }
  }

  lemma {:induction false} FlattenedPlain(gs: seq<seq<string>>)
    requires forall i :: 0 <= i < |gs| ==> gs[i] != []
    requires forall k :: 0 <= k < |Flatten(gs)| ==> PlainWord(Flatten(gs)[k])
    ensures PlainGroups(gs)
  {
    hide PlainWord;
    if gs != [] {
      var tail := Flatten(gs[1..]);
      assert forall k :: 0 <= k < |tail| ==> tail[k] == Flatten(gs)[|gs[0]| + k];
      FlattenedPlain(gs[1..]);
      assert forall j :: 0 <= j < |gs[0]| ==> gs[0][j] == Flatten(gs)[j];
      forall i | 0 < i < |gs|
        ensures forall j :: 0 <= j < |gs[i]| ==> PlainWord(gs[i][j])
      {
        assert gs[i] == gs[1..][i - 1];
      }
    }
  }

  // ----- Main results -----

  /** Splitting the spelling at commas and blanks gives the digit words, and reading those the digits. */
  lemma {:induction false} SpellingReadsBack(digits: seq<Digit>)
    ensures Tokens(Spelling(digits), "") == Words(digits)
    ensures ReadBack(Spelling(digits)) == digits
  {
    hide PlainWord, DigitWord, ReadWord, Tokens;
    var words := Words(digits);
    Cadence(words);
    forall i | 0 <= i < |digits|
      ensures PlainWord(words[i]) && ReadWord(words[i]) == digits[i]
    {
      WordsAreReadable(digits[i]);
    }
    FlattenedPlain(Grouped(words));
    TokensOfGroups(Grouped(words));
  }

  /** Different numbers sound different. */
  lemma {:induction false} SpellingIsInjective(a: seq<Digit>, b: seq<Digit>)
    requires Spelling(a) == Spelling(b)
    ensures a == b
  {
    hide Spelling;
    SpellingReadsBack(a);
    SpellingReadsBack(b);
  }

  function Commas(s: string): nat {
    multiset(s)[',']
  }

  lemma {:induction false} CommasInGroup(g: seq<string>)
    requires forall i :: 0 <= i < |g| ==> PlainWord(g[i])
    ensures Commas(Join(" ", g)) == 0
  {
    if |g| == 1 {
      assert ',' !in g[0];
    } else if |g| > 1 {
      CommasInGroup(g[1..]);
      assert ',' !in g[0] && ',' !in " ";
      assert Join(" ", g) == g[0] + " " + Join(" ", g[1..]);
    }
  }

  lemma {:induction false} CommasBetween(parts: seq<string>)
    requires forall i :: 0 <= i < |parts| ==> Commas(parts[i]) == 0
    ensures Commas(Join(", ", parts)) == if parts == [] then 0 else |parts| - 1
  {
    if |parts| > 1 {
      CommasBetween(parts[1..]);
      assert Join(", ", parts) == parts[0] + ", " + Join(", ", parts[1..]);
      assert ", " == [',', ' '];
    }
  }

  /** There is one pause, a comma, between any two groups and nowhere else: none up to four digits, and one for every
      further four, with the leading three counted apart above six. */
  lemma {:induction false} PausesSeparateGroups(digits: seq<Digit>)
    ensures var n := |digits|;
            Commas(Spelling(digits)) == if n == 0 then 0 else if n <= 6 then (n - 1) / 4 else 1 + (n - 4) / 4
  {
    hide PlainWord, DigitWord, Tokens;
    var words := Words(digits);
    var gs := Grouped(words);
    Cadence(words);
    forall i | 0 <= i < |digits|
      ensures PlainWord(words[i])
    {
      WordsAreReadable(digits[i]);
    }
    FlattenedPlain(gs);
    forall i | 0 <= i < |gs|
      ensures Commas(Spoken(gs)[i]) == 0
    {
      CommasInGroup(gs[i]);
    }
    CommasBetween(Spoken(gs));
    FoursAreFours(words);
    if |words| > 6 {
      FoursAreFours(words[3..]);
    }
  }

  /** The documented postcode: it is spoken with a pause before its last digit. */
  lemma {:induction false} PostcodeHasAPause()
    ensures Spelling([5, 3, 1, 2, 6]) == "fünf drei eins zwei, sechs"
  {
    var words := Words([5, 3, 1, 2, 6]);
    assert words == ["fünf", "drei", "eins", "zwei", "sechs"];
    assert words[..4] == ["fünf", "drei", "eins", "zwei"] && words[4..] == ["sechs"];
    assert Grouped(words) == [words[..4], words[4..]];
    assert Join(" ", ["eins", "zwei"]) == "eins zwei";
    assert Join(" ", ["drei", "eins", "zwei"]) == "drei eins zwei";
    assert Join(" ", ["fünf", "drei", "eins", "zwei"]) == "fünf drei eins zwei";
    assert Spoken(Grouped(words)) == ["fünf drei eins zwei", "sechs"];
  }
}
