/**
  The rule-based fallback fixer of `lib/ai-fix.ts` (`generateSimpleFix`).
  Ten risky words are replaced, ignoring case, in title and description;
  an all-capitals title longer than 10 characters is recased word by word;
  runs of `!` and of `?` shrink to one; and every step that fired leaves a
  message in the list of changes.
*/
module SimpleFix {
  import opened Seqs
  import opened Strings

  // ------------------------------------------------------------------ case-insensitive replacement

  /** Lowercasing commutes with taking a prefix or dropping the first character. */
  lemma LowerSlices(s: string, n: int)
    requires 0 <= n <= |s|
    ensures Lower(s[..n]) == Lower(s)[..n]
    ensures |s| > 0 ==> Lower(s[1..]) == Lower(s)[1..]
  {
  }

  /** `bad` occurs at the very start of `s`, ignoring case. */
  predicate StartsWithIgnoreCase(s: string, bad: string) {
    |bad| <= |s| && Lower(s[..|bad|]) == Lower(bad)
  }

  /**
    `s.replace(new RegExp(bad, 'gi'), good)`: scanning from the left, each
    match of `bad`, ignoring case, is replaced and the scan resumes after it.
  */
  function ReplaceAll(s: string, bad: string, good: string): (r: string)
    requires |bad| > 0
    decreases |s|
  {
    if |s| == 0 then ""
    else if StartsWithIgnoreCase(s, bad) then good + ReplaceAll(s[|bad|..], bad, good)
    else [s[0]] + ReplaceAll(s[1..], bad, good)
  }

  /** How many matches `ReplaceAll` replaces. */
  function Matches(s: string, bad: string): nat
    requires |bad| > 0
    decreases |s|
  {
    if |s| == 0 then 0
    else if StartsWithIgnoreCase(s, bad) then 1 + Matches(s[|bad|..], bad)
    else Matches(s[1..], bad)
  }

  /** The search finds a match exactly when `ContainsIgnoreCase` holds. */
  lemma {:induction false} MatchesFound(s: string, bad: string)
    requires |bad| > 0
    ensures Matches(s, bad) > 0 <==> ContainsIgnoreCase(s, bad)
    decreases |s|
  {
    var t, p := Lower(s), Lower(bad);
    if |s| > 0 {
      if |bad| <= |s| {
        LowerSlices(s, |bad|);
      }
      LowerSlices(s, 0);
      if !StartsWithIgnoreCase(s, bad) {
        MatchesFound(s[1..], bad);
        assert !(|p| <= |t| && t[..|p|] == p);
      }
    }
  }

  /** Each match changes the length by the difference of the two words. */
  lemma {:induction false} ReplaceLength(s: string, bad: string, good: string)
    requires |bad| > 0
    ensures |ReplaceAll(s, bad, good)| == |s| + Matches(s, bad) * (|good| - |bad|)
    decreases |s|
  {
    if |s| > 0 {
      var k := |good| - |bad|;
      if StartsWithIgnoreCase(s, bad) {
        var rest := s[|bad|..];
        ReplaceLength(rest, bad, good);
        var m := Matches(rest, bad);
        assert |ReplaceAll(s, bad, good)| == |good| + |ReplaceAll(rest, bad, good)|;
        assert |ReplaceAll(rest, bad, good)| == |rest| + m * k;
        assert Matches(s, bad) == m + 1;
        SuccTimes(m, k);
      } else {
        ReplaceLength(s[1..], bad, good);
      }
    }
  }

  lemma SuccTimes(m: int, k: int)
    ensures (m + 1) * k == m * k + k
  {
  }

  /** Without a match nothing is replaced. */
  lemma {:induction false} ReplaceNothing(s: string, bad: string, good: string)
    requires |bad| > 0 && Matches(s, bad) == 0
    ensures ReplaceAll(s, bad, good) == s
    decreases |s|
  {
    if |s| > 0 {
      ReplaceNothing(s[1..], bad, good);
      assert s == [s[0]] + s[1..];
    }
  }

  /** Words are replaced inside longer words too: "secure" holds "cure". */
  lemma ReplacesInsideWords()
    ensures ReplaceAll("secure", "cure", "help with") == "sehelp with"
  {
    assert !StartsWithIgnoreCase("secure", "cure");
    assert "secure"[1..] == "ecure";
    assert !StartsWithIgnoreCase("ecure", "cure");
    assert "ecure"[1..] == "cure";
    assert StartsWithIgnoreCase("cure", "cure");
    assert "cure"[4..] == "";
  }

  // ------------------------------------------------------------------ the word table

  datatype Replacement = Replacement(bad: string, good: string)

  /** The table, in its insertion order. */
  const ForbiddenWords: seq<Replacement> := [
    Replacement("miracle", "effective"),
    Replacement("guaranteed", "designed to"),
    Replacement("cure", "help with"),
    Replacement("FDA approved", "quality"),
    Replacement("instant", "quick"),
    Replacement("100%", "highly"),
    Replacement("risk-free", "quality"),
    Replacement("treatment", "support"),
    Replacement("clinically proven", "tested"),
    Replacement("doctor", "professional")
  ]

  /** Entries whose word is non-empty and differs in length from its replacement. */
  predicate Usable(ws: seq<Replacement>) {
    forall k :: 0 <= k < |ws| ==> |ws[k].bad| > 0 && |ws[k].good| != |ws[k].bad|
  }

  lemma TableUsable()
    ensures Usable(ForbiddenWords)
  {
  }

  /** Title, description and the change messages so far. */
  datatype Draft = Draft(title: string, description: string, changes: seq<string>)

  function ReplacedMessage(w: Replacement, field: string): string {
    "Replaced \"" + w.bad + "\" with \"" + w.good + "\" in " + field
  }

  /** One entry applied to the title and then to the description, each only when it matches. */
  function ApplyWord(d: Draft, w: Replacement): (e: Draft)
    requires |w.bad| > 0
    ensures |e.changes| >= |d.changes| && e.changes[..|d.changes|] == d.changes
    ensures !ContainsIgnoreCase(d.title, w.bad) && !ContainsIgnoreCase(d.description, w.bad) <==> e.changes == d.changes
  {
    var inTitle := ContainsIgnoreCase(d.title, w.bad);
    var inDescription := ContainsIgnoreCase(d.description, w.bad);
    Draft(
      if inTitle then ReplaceAll(d.title, w.bad, w.good) else d.title,
      if inDescription then ReplaceAll(d.description, w.bad, w.good) else d.description,
      d.changes + (if inTitle then [ReplacedMessage(w, "title")] else [])
                + (if inDescription then [ReplacedMessage(w, "description")] else []))
  }

  /** When the words differ in length, replacing changes a text exactly when the word occurs in it. */
  lemma ReplaceChanges(s: string, bad: string, good: string)
    requires |bad| > 0 && |good| != |bad|
    ensures ReplaceAll(s, bad, good) != s <==> ContainsIgnoreCase(s, bad)
  {
    MatchesFound(s, bad);
    var m := Matches(s, bad);
    if m > 0 {
      ReplaceLength(s, bad, good);
      NonZeroProduct(m, |good| - |bad|);
      assert |ReplaceAll(s, bad, good)| != |s|;
    } else {
      ReplaceNothing(s, bad, good);
    }
  }

  lemma NonZeroProduct(m: int, k: int)
    requires m > 0 && k != 0
    ensures m * k != 0
  {
  }

  /** A message is recorded for a field exactly when the entry changes it. */
  lemma MessageIffChanged(d: Draft, w: Replacement)
    requires |w.bad| > 0 && |w.good| != |w.bad|
    ensures ApplyWord(d, w).title != d.title <==> ReplacedMessage(w, "title") in ApplyWord(d, w).changes[|d.changes|..]
    ensures ApplyWord(d, w).description != d.description
       <==> ReplacedMessage(w, "description") in ApplyWord(d, w).changes[|d.changes|..]
  {
    ReplaceChanges(d.title, w.bad, w.good);
    ReplaceChanges(d.description, w.bad, w.good);
    var e := ApplyWord(d, w);
    var t, m := ReplacedMessage(w, "title"), ReplacedMessage(w, "description");
    assert t != m by {
      assert |t| + 6 == |m|;
    }
    var inTitle, inDescription := ContainsIgnoreCase(d.title, w.bad), ContainsIgnoreCase(d.description, w.bad);
    assert e.changes[|d.changes|..] == (if inTitle then [t] else []) + (if inDescription then [m] else []);
  }

  /** The entries applied one after the other. */
  function ApplyWords(d: Draft, ws: seq<Replacement>): (e: Draft)
    requires Usable(ws)
    ensures |e.changes| >= |d.changes| && e.changes[..|d.changes|] == d.changes
    decreases |ws|
  {
    if |ws| == 0 then d else ApplyWords(ApplyWord(d, ws[0]), ws[1..])
  }

  /** No entry matches the title or the description. */
  predicate NoWordIn(d: Draft, ws: seq<Replacement>) {
    forall k :: 0 <= k < |ws| ==> !ContainsIgnoreCase(d.title, ws[k].bad) && !ContainsIgnoreCase(d.description, ws[k].bad)
  }

  /**
    The entries record nothing exactly when none of their words occurs in the
    original texts; then the texts are left alone.
  */
  lemma {:induction false} WordsFound(d: Draft, ws: seq<Replacement>)
    requires Usable(ws)
    ensures ApplyWords(d, ws).changes == d.changes <==> NoWordIn(d, ws)
    ensures NoWordIn(d, ws) ==> ApplyWords(d, ws) == d
    decreases |ws|
  {
    if |ws| > 0 {
      var e := ApplyWord(d, ws[0]);
      if e.changes == d.changes {
        assert e == d;
        WordsFound(d, ws[1..]);
        assert NoWordIn(d, ws) <==> NoWordIn(d, ws[1..]) by {
          if NoWordIn(d, ws[1..]) {
            forall k | 0 <= k < |ws| ensures !ContainsIgnoreCase(d.title, ws[k].bad) && !ContainsIgnoreCase(d.description, ws[k].bad) {
              if k > 0 {
                assert ws[k] == ws[1..][k - 1];
              }
            }
          }
        }
      } else {
        assert |e.changes| > |d.changes|;
        var f := ApplyWords(e, ws[1..]);
        assert f.changes[..|e.changes|] == e.changes;
        assert |f.changes| > |d.changes|;
      }
    }
  }

  // ------------------------------------------------------------------ capitals

  /** A title the source treats as shouting: unchanged by `toUpperCase` and longer than 10 code units. */
  predicate Shouted(title: string) {
    Upper(title) == title && Utf16Length(title) > 10
  }

  /** Position `i` starts a word: a `\w` character not preceded by one. */
  predicate WordStart(s: string, i: int)
    requires 0 <= i < |s|
  {
    IsWordChar(s[i]) && (i == 0 || !IsWordChar(s[i - 1]))
  }

  /** `s.replace(/\b\w/g, l => l.toUpperCase())`: each word's first character in capitals. */
  function Capitalize(s: string): (r: string)
    ensures |r| == |s|
    ensures forall i :: 0 <= i < |s| ==> r[i] == if WordStart(s, i) then UpperChar(s[i]) else s[i]
  {
    seq(|s|, i requires 0 <= i < |s| => if WordStart(s, i) then UpperChar(s[i]) else s[i])
  }

  /** The recased title keeps the letters and puts each word's first letter in capitals. */
  lemma RecasedTitle(title: string)
    ensures Lower(Capitalize(Lower(title))) == Lower(title)
    ensures forall i :: 0 <= i < |title| && WordStart(Lower(title), i) && IsLower(Lower(title)[i]) ==>
      IsUpper(Capitalize(Lower(title))[i])
    ensures forall i :: 0 <= i < |title| && !WordStart(Lower(title), i) ==> !IsUpper(Capitalize(Lower(title))[i])
  {
  }

  /** "MIRACLE CREAM" shouts. */
  lemma ShoutingExample()
    ensures Shouted("MIRACLE CREAM")
  {
    var s := "MIRACLE CREAM";
    assert |s| == 13;
    assert Upper(s) == s;
  }

  /** "MIRACLE CREAM" starts with the table word "miracle", ignoring case. */
  lemma StartsWithExample()
    ensures StartsWithIgnoreCase("MIRACLE CREAM", "miracle")
  {
  }

  /**
    A lower-case replacement at the start stops a title from shouting, so the
    recasing is skipped: "MIRACLE CREAM" becomes "effective CREAM" and stays so.
  */
  lemma ReplacementStopsRecasing(s: string, bad: string, good: string)
    requires |bad| > 0 && StartsWithIgnoreCase(s, bad) && |good| > 0 && IsLower(good[0])
    ensures !Shouted(ReplaceAll(s, bad, good))
  {
    var r := ReplaceAll(s, bad, good);
    assert r[0] == good[0];
    assert Upper(r)[0] != r[0];
  }

  // ------------------------------------------------------------------ punctuation

  /** No two `c` in a row. */
  predicate NoRun(s: string, c: char) {
    forall i :: 0 <= i < |s| - 1 ==> !(s[i] == c && s[i + 1] == c)
  }

  /** `s.replace(/c{2,}/g, c)`: every run of two or more `c` becomes one. */
  function Squeeze(s: string, c: char): (r: string)
    ensures |r| <= |s|
    ensures |s| > 0 ==> |r| > 0 && r[0] == s[0]
    decreases |s|
  {
    if |s| == 0 then ""
    else if |s| >= 2 && s[0] == c && s[1] == c then Squeeze(s[1..], c)
    else [s[0]] + Squeeze(s[1..], c)
  }

  lemma NoRunTail(s: string, c: char)
    requires |s| > 0 && NoRun(s, c)
    ensures NoRun(s[1..], c)
  {
    forall i | 0 <= i < |s| - 2 ensures !(s[1..][i] == c && s[1..][i + 1] == c) {
      assert s[1..][i] == s[i + 1] && s[1..][i + 1] == s[i + 2];
    }
  }

  /** Squeezing `c` creates no run of any other character. */
  lemma {:induction false} SqueezeRuns(s: string, c: char, d: char)
    requires d != c && NoRun(s, d)
    ensures NoRun(Squeeze(s, c), d)
    decreases |s|
  {
    if |s| > 0 {
      NoRunTail(s, d);
      SqueezeRuns(s[1..], c, d);
      var rest := Squeeze(s[1..], c);
      if !(|s| >= 2 && s[0] == c && s[1] == c) {
        var r := [s[0]] + rest;
        forall i | 0 <= i < |r| - 1 ensures !(r[i] == d && r[i + 1] == d) {
          if i > 0 {
            assert r[i] == rest[i - 1] && r[i + 1] == rest[i];
          } else {
            assert r[1] == rest[0] == s[1];
          }
        }
      }
    }
  }

  /** Text without a run of `c` is left as it is. */
  lemma {:induction false} SqueezeKeeps(s: string, c: char)
    requires NoRun(s, c)
    ensures Squeeze(s, c) == s
    decreases |s|
  {
    if |s| > 0 {
      NoRunTail(s, c);
      SqueezeKeeps(s[1..], c);
      assert s == [s[0]] + s[1..];
    }
  }

  /** Squeezing twice is squeezing once. */
  lemma SqueezeIdempotent(s: string, c: char)
    ensures Squeeze(Squeeze(s, c), c) == Squeeze(s, c)
  {
    SqueezeRunsOnly(s, c);
    SqueezeKeeps(Squeeze(s, c), c);
  }

  /** Squeezing removes only copies of `c`: without the `c`s, the text is the same before and after. */
  lemma {:induction false} SqueezeOthers(s: string, c: char)
    ensures RemoveChar(Squeeze(s, c), c) == RemoveChar(s, c)
    decreases |s|
  {
    if |s| > 0 {
      SqueezeOthers(s[1..], c);
      assert s == [s[0]] + s[1..];
      FilterAppend([s[0]], s[1..], (x: char) => x != c);
      if !(|s| >= 2 && s[0] == c && s[1] == c) {
        FilterAppend([s[0]], Squeeze(s[1..], c), (x: char) => x != c);
      }
    }
  }

  /** After squeezing no run of `c` is left. */
  lemma {:induction false} SqueezeRunsOnly(s: string, c: char)
    ensures NoRun(Squeeze(s, c), c)
    decreases |s|
  {
    if |s| > 0 {
      SqueezeRunsOnly(s[1..], c);
      var rest := Squeeze(s[1..], c);
      if !(|s| >= 2 && s[0] == c && s[1] == c) {
        var r := [s[0]] + rest;
        forall i | 0 <= i < |r| - 1 ensures !(r[i] == c && r[i + 1] == c) {
          if i > 0 {
            assert r[i] == rest[i - 1] && r[i + 1] == rest[i];
          } else {
            assert r[1] == rest[0] == s[1];
          }
        }
      }
    }
  }

  /** Both punctuation passes: first `!`, then `?`. */
  function CleanPunctuation(s: string): string {
    Squeeze(Squeeze(s, '!'), '?')
  }

  /** The cleaned text has no `!!` and no `??`. */
  lemma CleanHasNoRuns(s: string)
    ensures NoRun(CleanPunctuation(s), '!') && NoRun(CleanPunctuation(s), '?')
  {
    SqueezeRunsOnly(s, '!');
    SqueezeRuns(Squeeze(s, '!'), '?', '!');
    SqueezeRunsOnly(Squeeze(s, '!'), '?');
  }

  // ------------------------------------------------------------------ the fixer

  const CapsMessage: string := "Fixed excessive capitalization in title"
  const PunctuationMessage: string := "Cleaned up punctuation"
  const DefaultMessage: string := "Applied standard compliance improvements"

  datatype SimpleFixResult = SimpleFixResult(
    originalTitle: string,
    originalDescription: string,
    title: string,
    description: string,
    changes: seq<string>)

  /** The fallback fix of a title and description. */
  function GenerateSimpleFix(title: string, description: string): (f: SimpleFixResult)
    ensures f.originalTitle == title && f.originalDescription == description
    ensures |f.changes| >= 1
    ensures NoRun(f.title, '!') && NoRun(f.title, '?')
    ensures NoRun(f.description, '!') && NoRun(f.description, '?')
  {
    TableUsable();
    var replaced := ApplyWords(Draft(title, description, []), ForbiddenWords);
    var shouted := Shouted(replaced.title);
    var fixedTitle := if shouted then Capitalize(Lower(replaced.title)) else replaced.title;
    var changes := replaced.changes + (if shouted then [CapsMessage] else []);
    CleanHasNoRuns(fixedTitle);
    CleanHasNoRuns(replaced.description);
    SimpleFixResult(
      title, description,
      CleanPunctuation(fixedTitle),
      CleanPunctuation(replaced.description),
      if |changes| > 0 then changes + [PunctuationMessage] else [DefaultMessage])
  }

  /**
    Only the default message is reported exactly when no table word occurs in
    the texts and the title is not shouting; otherwise the punctuation message
    comes last.
  */
  lemma FixMessages(title: string, description: string)
    ensures var f := GenerateSimpleFix(title, description);
      && (f.changes == [DefaultMessage] <==> NoWordIn(Draft(title, description, []), ForbiddenWords) && !Shouted(title))
      && (f.changes != [DefaultMessage] ==> f.changes[|f.changes| - 1] == PunctuationMessage)
  {
    TableUsable();
    var d := Draft(title, description, []);
    WordsFound(d, ForbiddenWords);
  }

  /** Without table words or shouting, only the punctuation changes. */
  lemma QuietFix(title: string, description: string)
    requires NoWordIn(Draft(title, description, []), ForbiddenWords) && !Shouted(title)
    ensures GenerateSimpleFix(title, description).title == CleanPunctuation(title)
    ensures GenerateSimpleFix(title, description).description == CleanPunctuation(description)
  {
    TableUsable();
    WordsFound(Draft(title, description, []), ForbiddenWords);
  }
}
