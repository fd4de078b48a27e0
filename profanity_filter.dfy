/**
 * The profanity check used on user text: the text is cut into words at every
 * non-alphanumeric character, and a word counts when it is one of the listed
 * words (compared in lower case). Masking replaces each listed word, wherever
 * it occurs and in any case, by as many asterisks as it has characters.
 */
module ProfanityFilter {
  import opened Strings

  const ProfanityWords: set<string> := {"badword", "swear", "curse"}

  /** `components(separatedBy: CharacterSet.alphanumerics.inverted)`. */
  function Tokens(s: string): (r: seq<string>)
    ensures |r| >= 1
  {
    Components(s, IsNotAlphanumeric)
  }

  /** Some word of the lower-cased text is a listed word. */
  predicate HasProfaneToken(text: string) {
    exists k :: 0 <= k < |Tokens(Lower(text))| && Tokens(Lower(text))[k] in ProfanityWords
  }

  /** `containsProfanity`: the loop over the words, returning at the first listed one. */
  method ContainsProfanity(text: string) returns (found: bool)
    ensures found <==> HasProfaneToken(text)
  {
    var lowercased := Lower(text);
    var words := Tokens(lowercased);
    for i := 0 to |words|
      invariant forall k :: 0 <= k < i ==> words[k] !in ProfanityWords
    {
      if words[i] in ProfanityWords {
        return true;
      }
    }
    return false;
  }

  // ---------------------------------------------------------------------------
  // Facts about the words of a text.

  /** A text without separators is a single word. */
  lemma {:induction false} TokensOfWord(s: string)
    requires forall i :: 0 <= i < |s| ==> IsAlphanumeric(s[i])
    ensures Tokens(s) == [s]
    decreases |s|
  {
    if s != [] {
      TokensOfWord(s[1..]);
      assert [s[0]] + s[1..] == s;
    }
  }

  /** A separator splits the words of the two sides apart. */
  lemma {:induction false} TokensAroundSeparator(a: string, c: char, b: string)
    requires IsNotAlphanumeric(c)
    ensures Tokens(a + [c] + b) == Tokens(a) + Tokens(b)
    decreases |a|
  {
    if a == [] {
      assert a + [c] + b == [c] + b;
      assert ([c] + b)[1..] == b;
    } else {
      TokensAroundSeparator(a[1..], c, b);
      assert (a + [c] + b)[1..] == a[1..] + [c] + b;
      var rest := Tokens(a[1..]);
      if !IsNotAlphanumeric(a[0]) {
        assert (rest + Tokens(b))[0] == rest[0];
        assert (rest + Tokens(b))[1..] == rest[1..] + Tokens(b);
      }
    }
  }

  /** Lower-casing works character by character, so it goes through a split. */
  lemma LowerAround(a: string, c: char, b: string)
    ensures Lower(a + [c] + b) == Lower(a) + [LowerChar(c)] + Lower(b)
  {
    var l, r := Lower(a + [c] + b), Lower(a) + [LowerChar(c)] + Lower(b);
    assert |l| == |r|;
    forall i | 0 <= i < |l|
      ensures l[i] == r[i]
    {
      if i < |a| {
        assert (a + [c] + b)[i] == a[i];
      } else if i > |a| {
        assert (a + [c] + b)[i] == b[i - |a| - 1];
      }
    }
  }

  /** Upper or lower case does not change the verdict. */
  lemma CaseInsensitive(text: string)
    ensures HasProfaneToken(text) <==> HasProfaneToken(Lower(text))
  {
    LowerIdempotent(text);
  }

  /** The empty text has one word, the empty one, which is not listed. */
  lemma EmptyTextIsClean()
    ensures !HasProfaneToken("")
  {
    assert Tokens(Lower("")) == [""];
  }

  /** A text of letters and digits is flagged exactly when it is, lower-cased, a listed word. */
  lemma {:induction false} SingleWordFlaggedIffListed(text: string)
    requires forall i :: 0 <= i < |text| ==> IsAlphanumeric(text[i])
    ensures HasProfaneToken(text) <==> Lower(text) in ProfanityWords
  {
    TokensOfWord(Lower(text));
    assert Tokens(Lower(text))[0] == Lower(text);
  }

  /** A listed word inside a longer word is not flagged. */
  lemma SwearingIsNotFlagged()
    ensures !HasProfaneToken("swearing")
  {
    SingleWordFlaggedIffListed("swearing");
    assert Lower("swearing") == "swearing";
  }

  /** A listed word standing between separators is flagged, whatever its case and its surroundings. */
  lemma {:induction false} StandaloneWordIsFlagged(p: string, c: char, w: string, d: char, q: string)
    requires IsNotAlphanumeric(c) && IsNotAlphanumeric(d)
    requires forall i :: 0 <= i < |w| ==> IsAlphanumeric(w[i])
    requires Lower(w) in ProfanityWords
    ensures HasProfaneToken(p + [c] + w + [d] + q)
  {
    var lc, ld, lw := LowerChar(c), LowerChar(d), Lower(w);
    LowerAround(p, c, w + [d] + q);
    LowerAround(w, d, q);
    assert p + [c] + w + [d] + q == p + [c] + (w + [d] + q);
    var tail := lw + [ld] + Lower(q);
    assert Lower(p + [c] + w + [d] + q) == Lower(p) + [lc] + tail;
    TokensAroundSeparator(Lower(p), lc, tail);
    TokensAroundSeparator(lw, ld, Lower(q));
    TokensOfWord(lw);
    var k := |Tokens(Lower(p))|;
    assert (Tokens(Lower(p)) + ([lw] + Tokens(Lower(q))))[k] == lw;
  }

  // ---------------------------------------------------------------------------
  // Masking.

  /** `String(repeating: "*", count: n)`. */
  function Stars(n: nat): (r: string)
    ensures |r| == n && forall i :: 0 <= i < n ==> r[i] == '*'
  {
    seq(n, i => '*')
  }

  /**
   * `replacingOccurrences(of: target, with: replacement, options: .caseInsensitive)`:
   * scans left to right and replaces every non-overlapping match, ignoring case.
   */
  function ReplaceIgnoringCase(s: string, target: string, replacement: string): string
    requires |target| > 0
    decreases |s|
  {
    if |s| < |target| then s
    else if EqualsIgnoringCase(s[..|target|], target) then
      replacement + ReplaceIgnoringCase(s[|target|..], target, replacement)
    else [s[0]] + ReplaceIgnoringCase(s[1..], target, replacement)
  }

  /** One step of `filterProfanity`'s loop. */
  function MaskWord(filtered: string, word: string): string {
    if Lower(word) in ProfanityWords then
      assert "" !in ProfanityWords && |Lower(word)| > 0;
      ReplaceIgnoringCase(filtered, word, Stars(|word|))
    else filtered
  }

  /** The text after the loop has handled `words`, in order. */
  function MaskAll(text: string, words: seq<string>): string
    decreases |words|
  {
    if words == [] then text
    else MaskWord(MaskAll(text, words[..|words| - 1]), words[|words| - 1])
  }

  /** `filterProfanity`: the loop over the words of the original text, masking the listed ones. */
  method FilterProfanity(text: string) returns (filtered: string)
    ensures filtered == MaskAll(text, Tokens(text))
  {
    filtered := text;
    var words := Tokens(text);
    for i := 0 to |words|
      invariant filtered == MaskAll(text, words[..i])
    {
      assert words[..i + 1][..i] == words[..i];
      filtered := MaskWord(filtered, words[i]);
    }
    assert words[..|words|] == words;
  }

  /** A replacement no longer than its target keeps the length, and changes characters only into its own. */
  lemma {:induction false} ReplaceKeepsLength(s: string, target: string, n: nat)
    requires |target| == n > 0
    ensures |ReplaceIgnoringCase(s, target, Stars(n))| == |s|
    ensures forall i :: 0 <= i < |s| ==>
              ReplaceIgnoringCase(s, target, Stars(n))[i] == s[i] || ReplaceIgnoringCase(s, target, Stars(n))[i] == '*'
    decreases |s|
  {
    if |s| >= |target| {
      if EqualsIgnoringCase(s[..|target|], target) {
        ReplaceKeepsLength(s[|target|..], target, n);
      } else {
        ReplaceKeepsLength(s[1..], target, n);
      }
    }
  }

  /** Masking keeps the length of the text, and every character is kept or becomes `*`. */
  lemma {:induction false} MaskAllKeepsLength(text: string, words: seq<string>)
    ensures |MaskAll(text, words)| == |text|
    ensures forall i :: 0 <= i < |text| ==> MaskAll(text, words)[i] == text[i] || MaskAll(text, words)[i] == '*'
    decreases |words|
  {
    if words != [] {
      var before := MaskAll(text, words[..|words| - 1]);
      MaskAllKeepsLength(text, words[..|words| - 1]);
      var w := words[|words| - 1];
      if Lower(w) in ProfanityWords {
        assert "" !in ProfanityWords && |Lower(w)| > 0;
        ReplaceKeepsLength(before, w, |w|);
      }
    }
  }

  /** With no listed word among the words, the text comes back unchanged. */
  lemma {:induction false} MaskAllWithoutListedWords(text: string, words: seq<string>)
    requires forall k :: 0 <= k < |words| ==> Lower(words[k]) !in ProfanityWords
    ensures MaskAll(text, words) == text
    decreases |words|
  {
    if words != [] {
      MaskAllWithoutListedWords(text, words[..|words| - 1]);
    }
  }

  /** `filterProfanity` keeps the length of the text and only ever writes `*`. */
  lemma FilterKeepsLength(text: string)
    ensures |MaskAll(text, Tokens(text))| == |text|
    ensures forall i :: 0 <= i < |text| ==> MaskAll(text, Tokens(text))[i] in {text[i], '*'}
  {
    MaskAllKeepsLength(text, Tokens(text));
  }

  /** `filterProfanity` returns a text without listed words as it is. */
  lemma CleanTextUnchanged(text: string)
    requires forall k :: 0 <= k < |Tokens(text)| ==> Lower(Tokens(text)[k]) !in ProfanityWords
    ensures MaskAll(text, Tokens(text)) == text
  {
    MaskAllWithoutListedWords(text, Tokens(text));
  }

  lemma SwearWords()
    ensures Tokens("swear") == ["swear"] && Tokens("swearing") == ["swearing"]
  {
    TokensOfWord("swear");
    TokensOfWord("swearing");
  }

  lemma SwearSwearingWords()
    ensures Tokens("swear swearing") == ["swear", "swearing"]
  {
    var a, b := "swear", "swearing";
    assert "swear swearing" == a + [' '] + b;
    TokensAroundSeparator(a, ' ', b);
    SwearWords();
  }

  lemma ReplaceSwearInSwearing()
    ensures ReplaceIgnoringCase("swearing", "swear", "*****") == "*****ing"
  {
    assert "swearing"[..5] == "swear" && "swearing"[5..] == "ing";
    assert Lower("swear") == "swear";
    assert ReplaceIgnoringCase("ing", "swear", "*****") == "ing";
  }

  lemma ReplaceSwearInText()
    ensures ReplaceIgnoringCase("swear swearing", "swear", "*****") == "***** *****ing"
  {
    var s := "swear swearing";
    assert s[..5] == "swear" && s[5..] == " swearing";
    assert Lower("swear") == "swear";
    var t := " swearing";
    assert Lower(t[..5]) != Lower("swear") by { assert Lower(t[..5])[0] == ' '; }
    assert t[1..] == "swearing";
    ReplaceSwearInSwearing();
  }

  lemma MaskAllTwoWords(text: string, w1: string, w2: string)
    ensures MaskAll(text, [w1, w2]) == MaskWord(MaskWord(text, w1), w2)
  {
    var ws := [w1, w2];
    assert ws[..1] == [w1] && [w1][..0] == [];
    assert MaskAll(text, [w1]) == MaskWord(MaskAll(text, []), w1);
    assert MaskAll(text, ws) == MaskWord(MaskAll(text, [w1]), w2);
  }

  lemma MaskSwear()
    ensures MaskWord("swear swearing", "swear") == "***** *****ing"
  {
    assert Lower("swear") == "swear";
    assert Stars(5) == "*****";
    ReplaceSwearInText();
  }

  lemma MaskSwearing()
    ensures MaskWord("***** *****ing", "swearing") == "***** *****ing"
  {
    assert Lower("swearing") == "swearing";
  }

  /** "swear swearing": the listed word is masked, also where it starts a longer word. */
  lemma SwearSwearingMasked()
    ensures MaskAll("swear swearing", Tokens("swear swearing")) == "***** *****ing"
  {
    SwearSwearingWords();
    MaskAllTwoWords("swear swearing", "swear", "swearing");
    MaskSwear();
    MaskSwearing();
  }
}
