/**
  The helpers of `lib/utils.ts` that compute rather than format: percentages,
  truncation, the risk colours, and the e-mail check. Numbers are exact
  rationals and strings are sequences of characters, one per Unicode scalar value.
*/
module Utils {
  import opened Seqs
  import opened Strings
  import opened Rounding
  import opened RiskModel

  // ------------------------------------------------------------------ percentages

  /** `value` as a whole percentage of `total`; 0 when the total is 0. */
  function CalculatePercentage(value: real, total: real): (r: int)
    ensures total == 0.0 ==> r == 0
    ensures total != 0.0 ==> (value / total) * 100.0 - 0.5 < r as real <= (value / total) * 100.0 + 0.5
  {
    if total == 0.0 then 0 else RoundHalfUp((value / total) * 100.0)
  }

  /** A part of a positive total is between 0 and 100 percent of it. */
  lemma PercentageWithin(value: real, total: real)
    requires 0.0 <= value <= total && total > 0.0
    ensures 0 <= CalculatePercentage(value, total) <= 100
  {
    var q := value / total;
    assert q * total == value;
    assert 0.0 <= q <= 1.0;
    RoundWithin(q * 100.0, 0, 100);
  }

  /** The whole of a non-zero total is 100 percent, and nothing is 0 percent. */
  lemma PercentageEnds(total: real)
    requires total != 0.0
    ensures CalculatePercentage(total, total) == 100
    ensures CalculatePercentage(0.0, total) == 0
  {
  }

  /** Over a positive total, a larger value never gives a smaller percentage. */
  lemma PercentageMonotone(value: real, value': real, total: real)
    requires value <= value' && total > 0.0
    ensures CalculatePercentage(value, total) <= CalculatePercentage(value', total)
  {
    var q, q' := value / total, value' / total;
    assert q * total == value && q' * total == value';
    assert q <= q';
    RoundMonotone(q * 100.0, q' * 100.0);
  }

  // ------------------------------------------------------------------ truncation

  /** `s.slice(0, n)`: a negative end counts back from the end of the text. */
  function SliceTo(s: string, n: int): (r: string)
    ensures |r| <= |s| && r == s[..|r|]
    ensures n >= 0 ==> |r| == if n <= |s| then n else |s|
    ensures n < 0 ==> |r| == if |s| + n >= 0 then |s| + n else 0
  {
    if n >= 0 then (if n <= |s| then s[..n] else s)
    else if |s| + n >= 0 then s[..|s| + n]
    else ""
  }

  /** The text when it fits in `length`, else its cut-off start followed by an ellipsis. */
  function Truncate(text: string, length: int): (r: string)
    ensures |text| <= length ==> r == text
    ensures |text| > length ==> 3 <= |r| <= |text| + 3 && r[|r| - 3..] == "..." && r[..|r| - 3] == text[..|r| - 3]
    ensures |text| > length >= 0 ==> |r| == length + 3
  {
    if |text| <= length then text else SliceTo(text, length) + "..."
  }

  /** With a non-negative length, truncating twice is truncating once. */
  lemma TruncateIdempotent(text: string, length: int)
    requires length >= 0
    ensures Truncate(Truncate(text, length), length) == Truncate(text, length)
  {
    var r := Truncate(text, length);
    if |text| > length {
      assert r[..length] == text[..length];
      assert Truncate(r, length) == r[..length] + "...";
    }
  }

  /** A negative length counts back from the end: `-k` keeps all but the last `k` characters. */
  lemma TruncateNegative(text: string, k: int)
    requires 0 < k <= |text|
    ensures Truncate(text, -k) == text[..|text| - k] + "..."
  {
  }

  /** Truncating to a negative length is not idempotent: each pass adds an ellipsis and cuts less. */
  lemma TruncateNegativeGrows()
    ensures Truncate("abcdef", -2) == "abcd..."
    ensures Truncate(Truncate("abcdef", -2), -2) == "abcd...."
  {
  }

  // ------------------------------------------------------------------ colours

  const GreenText: string := "text-green-600 bg-green-50"
  const YellowText: string := "text-yellow-600 bg-yellow-50"
  const OrangeText: string := "text-orange-600 bg-orange-50"
  const RedText: string := "text-red-600 bg-red-50"

  /** The text and background classes for a risk score, following the tier cut points below 85. */
  function RiskColor(score: real): (r: string)
    ensures r == GreenText <==> LevelOf(score) == SafeRisk
    ensures r == YellowText <==> LevelOf(score) == LowRisk
    ensures r == OrangeText <==> LevelOf(score) == MediumRisk
    ensures r == RedText <==> LevelOf(score).Rank() >= 3
  {
    if score < 30.0 then GreenText
    else if score < 50.0 then YellowText
    else if score < 70.0 then OrangeText
    else RedText
  }

  const GrayBadge: string := "bg-gray-100 text-gray-800"

  /** The names of the five tiers. */
  const LevelNames: set<string> := {"safe", "low", "medium", "high", "critical"}

  /** The badge classes for a level name; unknown names get gray. */
  function RiskBadgeColor(level: string): (r: string)
    ensures r == GrayBadge <==> level !in LevelNames
  {
    match level
    case "safe" => "bg-green-100 text-green-800"
    case "low" => "bg-yellow-100 text-yellow-800"
    case "medium" => "bg-orange-100 text-orange-800"
    case "high" => "bg-red-100 text-red-800"
    case "critical" => "bg-red-600 text-white"
    case _ => GrayBadge
  }

  /** The names are exactly the tiers' names. */
  lemma LevelNamesAreTiers(name: string)
    ensures name in LevelNames <==> exists lv: RiskLevel :: lv.Name() == name
  {
    if name in LevelNames {
      var lv := if name == "safe" then SafeRisk else if name == "low" then LowRisk
        else if name == "medium" then MediumRisk else if name == "high" then HighRisk else CriticalRisk;
      assert lv.Name() == name;
    }
  }

  /** The five levels get five different badges, none of them gray. */
  lemma BadgesDistinct(a: RiskLevel, b: RiskLevel)
    ensures RiskBadgeColor(a.Name()) != GrayBadge
    ensures RiskBadgeColor(a.Name()) == RiskBadgeColor(b.Name()) <==> a == b
  {
  }

  // ------------------------------------------------------------------ e-mail check

  /** A non-empty run of characters that are neither whitespace nor `@`, as `[^\s@]+` matches. */
  predicate Plain(x: string) {
    |x| > 0 && forall k :: 0 <= k < |x| ==> !IsSpace(x[k]) && x[k] != '@'
  }

  /** The shape `^[^\s@]+@[^\s@]+\.[^\s@]+$`: split points for the `@` and for a dot after it. */
  predicate EmailShape(s: string) {
    exists i, j | 0 < i && i + 1 < j && j + 1 < |s| ::
      s[i] == '@' && s[j] == '.' && Plain(s[..i]) && Plain(s[i + 1..j]) && Plain(s[j + 1..])
  }

  /** The first index of `c` in `s`, or `|s|` when there is none. */
  function IndexOf(s: string, c: char): (i: nat)
    ensures i <= |s|
    ensures i < |s| ==> s[i] == c
    ensures forall k :: 0 <= k < i ==> s[k] != c
    decreases |s|
  {
    if |s| == 0 then 0 else if s[0] == c then 0 else 1 + IndexOf(s[1..], c)
  }

  /**
    The e-mail check stated without search: no whitespace, exactly one `@`,
    not first, and a dot after it with at least one character on each side.
  */
  function IsValidEmail(email: string): (valid: bool)
    ensures valid ==> '@' in email && '.' in email
  {
    var at := IndexOf(email, '@');
    && (forall k :: 0 <= k < |email| ==> !IsSpace(email[k]))
    && 0 < at && at + 2 < |email| - 1
    && '@' !in email[at + 1..]
    && '.' in email[at + 2..|email| - 1]
  }

  /** What the scan accepts has the regular expression's shape. */
  lemma EmailValidShape(s: string)
    requires IsValidEmail(s)
    ensures EmailShape(s)
  {
    var at := IndexOf(s, '@');
    var d := s[at + 2..|s| - 1];
    var m :| 0 <= m < |d| && d[m] == '.';
    var j := at + 2 + m;
    var tail := s[at + 1..];
    forall k | 0 <= k < |tail| ensures tail[k] != '@' {
      assert tail[k] in tail;
    }
    assert Plain(s[..at]);
    var b, c := s[at + 1..j], s[j + 1..];
    assert Plain(b) by {
      forall k | 0 <= k < |b| ensures b[k] == tail[k] { }
    }
    assert Plain(c) by {
      forall k | 0 <= k < |c| ensures c[k] == tail[k + j - at] { }
    }
    assert s[j] == '.' && s[at] == '@';
  }

  /** What has the regular expression's shape, the scan accepts. */
  lemma EmailShapeValid(s: string)
    requires EmailShape(s)
    ensures IsValidEmail(s)
  {
    var i, j :| 0 < i && i + 1 < j && j + 1 < |s| &&
      s[i] == '@' && s[j] == '.' && Plain(s[..i]) && Plain(s[i + 1..j]) && Plain(s[j + 1..]);
    var a, b, c := s[..i], s[i + 1..j], s[j + 1..];
    forall k | 0 <= k < |s| ensures !IsSpace(s[k]) && (k != i ==> s[k] != '@') {
      if k < i {
        assert a[k] == s[k];
      } else if i < k < j {
        assert b[k - i - 1] == s[k];
      } else if j < k {
        assert c[k - j - 1] == s[k];
      }
    }
    assert IndexOf(s, '@') == i;
    var tail := s[i + 1..];
    forall k | 0 <= k < |tail| ensures tail[k] != '@' {
      assert tail[k] == s[i + 1 + k];
    }
    var d := s[i + 2..|s| - 1];
    assert d[j - i - 2] == '.';
  }

  /** The scan accepts exactly the addresses of the regular expression's shape. */
  lemma EmailShapeIff(s: string)
    ensures IsValidEmail(s) <==> EmailShape(s)
  {
    if IsValidEmail(s) {
      EmailValidShape(s);
    }
    if EmailShape(s) {
      EmailShapeValid(s);
    }
  }

  /** A shortest address passes; so does one whose domain starts with a dot. */
  lemma EmailAccepted()
    ensures IsValidEmail("a@b.c")
    ensures IsValidEmail("a@.b.c")
  {
    assert "a@b.c"[3..4][0] == '.';
    assert "a@.b.c"[4..5][0] == '.';
  }

  /** Without a character after the dot, or before the `@`, an address fails. */
  lemma EmailRejected()
    ensures !IsValidEmail("a@b.")
    ensures !IsValidEmail("@b.c")
  {
  }
}
