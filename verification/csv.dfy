/**
  The CSV reader of `lib/utils.ts` (`parseCSV`). The text is split at line
  feeds and blank lines are skipped. In a line, a double quote toggles a
  quoted state and is dropped, a comma outside quotes ends a field, and any
  other character belongs to the current field; each field is trimmed.
*/
module Csv {
  import opened Seqs
  import opened Strings

  // ------------------------------------------------------------------ one line

  /** The untrimmed fields of `line`, read from the quoted state `inside`. */
  function RawFields(line: string, inside: bool): (fields: seq<string>)
    ensures |fields| >= 1
    decreases |line|
  {
    if |line| == 0 then [""]
    else if line[0] == '"' then RawFields(line[1..], !inside)
    else
      var rest := RawFields(line[1..], inside);
      if line[0] == ',' && !inside then [""] + rest
      else [[line[0]] + rest[0]] + rest[1..]
  }

  /** The quotes are dropped: no field holds one. */
  lemma {:induction false} NoQuotes(line: string, inside: bool)
    ensures forall k :: 0 <= k < |RawFields(line, inside)| ==> '"' !in RawFields(line, inside)[k]
    decreases |line|
  {
    if |line| > 0 {
      if line[0] == '"' {
        NoQuotes(line[1..], !inside);
      } else {
        NoQuotes(line[1..], inside);
      }
    }
  }

  /** The commas of `line` that separate fields: those met while outside quotes. */
  function CommasOutside(line: string, inside: bool): nat
    decreases |line|
  {
    if |line| == 0 then 0
    else if line[0] == '"' then CommasOutside(line[1..], !inside)
    else (if line[0] == ',' && !inside then 1 else 0) + CommasOutside(line[1..], inside)
  }

  /** Each separating comma closes one field, and the last field is closed by the end of the line. */
  lemma {:induction false} FieldCount(line: string, inside: bool)
    ensures |RawFields(line, inside)| == 1 + CommasOutside(line, inside)
    decreases |line|
  {
    if |line| > 0 {
      if line[0] == '"' {
        FieldCount(line[1..], !inside);
      } else {
        FieldCount(line[1..], inside);
      }
    }
  }

  /** Every field trimmed. */
  function TrimAll(fields: seq<string>): (r: seq<string>)
    ensures |r| == |fields|
    ensures forall k :: 0 <= k < |r| ==> r[k] == Trim(fields[k])
  {
    seq(|fields|, k requires 0 <= k < |fields| => Trim(fields[k]))
  }

  lemma TrimAllAppend(fields: seq<string>, field: string)
    ensures TrimAll(fields + [field]) == TrimAll(fields) + [Trim(field)]
  {
  }

  /** The values of one line. */
  function ParseLine(line: string): (values: seq<string>)
    ensures |values| >= 1
  {
    TrimAll(RawFields(line, false))
  }

  /** `all` is `done` followed by the fields still to come, the first of them continuing `current`. */
  ghost predicate Glued(all: seq<string>, done: seq<string>, current: string, rest: seq<string>) {
    |rest| >= 1 && all == done + [current + rest[0]] + rest[1..]
  }

  /** Before the first character, nothing is done and the whole line is still to come. */
  lemma GluedStart(line: string)
    ensures Glued(RawFields(line, false), [], "", RawFields(line[0..], false))
  {
    var all := RawFields(line, false);
    assert line[0..] == line;
    assert "" + all[0] == all[0] && [] + [all[0]] + all[1..] == all;
  }

  /** A quote only flips the state. */
  lemma GluedQuote(all: seq<string>, done: seq<string>, current: string, line: string, i: nat, inside: bool)
    requires i < |line| && line[i] == '"' && Glued(all, done, current, RawFields(line[i..], inside))
    ensures Glued(all, done, current, RawFields(line[i + 1..], !inside))
  {
    var s := line[i..];
    assert s[1..] == line[i + 1..];
  }

  /** A comma outside quotes closes the current value. */
  lemma GluedComma(all: seq<string>, done: seq<string>, current: string, line: string, i: nat, inside: bool)
    requires i < |line| && line[i] == ',' && !inside && Glued(all, done, current, RawFields(line[i..], inside))
    ensures Glued(all, done + [current], "", RawFields(line[i + 1..], inside))
    ensures TrimAll(done + [current]) == TrimAll(done) + [Trim(current)]
  {
    var s := line[i..];
    assert s[0] == ',' && s[1..] == line[i + 1..];
    var rest := RawFields(s[1..], inside);
    assert RawFields(s, inside) == [""] + rest;
    assert current + "" == current && "" + rest[0] == rest[0];
    assert done + [current] + rest == (done + [current]) + [rest[0]] + rest[1..];
    TrimAllAppend(done, current);
  }

  /** Any other character extends the current value. */
  lemma GluedChar(all: seq<string>, done: seq<string>, current: string, line: string, i: nat, inside: bool)
    requires i < |line| && line[i] != '"' && !(line[i] == ',' && !inside)
    requires Glued(all, done, current, RawFields(line[i..], inside))
    ensures Glued(all, done, current + [line[i]], RawFields(line[i + 1..], inside))
  {
    var s := line[i..];
    assert s[0] == line[i] && s[1..] == line[i + 1..];
    var rest := RawFields(s[1..], inside);
    assert RawFields(s, inside) == [[s[0]] + rest[0]] + rest[1..];
    assert current + ([s[0]] + rest[0]) == (current + [s[0]]) + rest[0];
  }

  /** At the end of the line the current value is the last field. */
  lemma GluedEnd(all: seq<string>, done: seq<string>, current: string, line: string, inside: bool)
    requires Glued(all, done, current, RawFields(line[|line|..], inside))
    ensures all == done + [current]
    ensures TrimAll(done + [current]) == TrimAll(done) + [Trim(current)]
  {
    assert line[|line|..] == "";
    assert RawFields("", inside) == [""];
    assert current + "" == current;
    TrimAllAppend(done, current);
  }

  /**
    The loop of the source over one line: a quote flips the state, a comma
    outside quotes closes the current value, anything else extends it.
  */
  method ParseLineLoop(line: string) returns (values: seq<string>)
    ensures values == ParseLine(line)
  {
    values := [];
    ghost var done: seq<string> := [];
    var current := "";
    var inside := false;
    var i := 0;
    ghost var all := RawFields(line, false);
    GluedStart(line);
    while i < |line|
      invariant 0 <= i <= |line|
      invariant values == TrimAll(done)
      invariant Glued(all, done, current, RawFields(line[i..], inside))
      decreases |line| - i
    {
      var c := line[i];
      if c == '"' {
        GluedQuote(all, done, current, line, i, inside);
        inside := !inside;
      } else if c == ',' && !inside {
        GluedComma(all, done, current, line, i, inside);
        values := values + [Trim(current)];
        done := done + [current];
        current := "";
      } else {
        GluedChar(all, done, current, line, i, inside);
        current := current + [c];
      }
      i := i + 1;
    }
    GluedEnd(all, done, current, line, inside);
    values := values + [Trim(current)];
  }

  // ------------------------------------------------------------------ properties of a line

  /** Rejoining the untrimmed fields with commas gives back the line without its quotes. */
  lemma {:induction false} JoinRawFields(line: string, inside: bool)
    ensures JoinWith(RawFields(line, inside), ',') == RemoveChar(line, '"')
    decreases |line|
  {
    if |line| > 0 {
      var rest := RawFields(line[1..], inside);
      assert line == [line[0]] + line[1..];
      FilterAppend([line[0]], line[1..], (x: char) => x != '"');
      if line[0] == '"' {
        JoinRawFields(line[1..], !inside);
      } else {
        JoinRawFields(line[1..], inside);
        if line[0] == ',' && !inside {
          assert ([""] + rest)[1..] == rest;
        } else {
          JoinCons(line[0], rest);
        }
      }
    }
  }

  /** Putting a character in front of the first part puts it in front of the joined text. */
  lemma {:induction false} JoinCons(c: char, parts: seq<string>)
    requires |parts| >= 1
    ensures JoinWith([[c] + parts[0]] + parts[1..], ',') == [c] + JoinWith(parts, ',')
  {
    var head := [c] + parts[0];
    var ps := [head] + parts[1..];
    assert ps[0] == head && |ps| == |parts|;
    if |parts| > 1 {
      var tail := JoinWith(parts[1..], ',');
      assert ps[1..] == parts[1..];
      JoinUnfold(ps);
      JoinUnfold(parts);
      assert head + [','] + tail == [c] + (parts[0] + [','] + tail);
    } else {
      assert JoinWith(ps, ',') == head;
    }
  }

  /** A join of two or more parts is the first part, the separator and the join of the rest. */
  lemma {:induction false} JoinUnfold(parts: seq<string>)
    requires |parts| >= 2
    ensures JoinWith(parts, ',') == parts[0] + [','] + JoinWith(parts[1..], ',')
  {
  }

  /** Without quotes, the fields are the comma-separated parts of the line. */
  lemma {:induction false} UnquotedSplits(line: string)
    requires '"' !in line
    ensures RawFields(line, false) == SplitOn(line, ',')
    decreases |line|
  {
    if |line| > 0 {
      assert '"' !in line[1..] by {
        forall k | 0 <= k < |line| - 1 ensures line[1..][k] != '"' {
          assert line[1..][k] == line[k + 1];
        }
      }
      UnquotedSplits(line[1..]);
    }
  }

  /** Inside quotes, without a closing quote, the rest of the line is one field, commas and all. */
  lemma {:induction false} QuotedKeepsCommas(line: string)
    requires '"' !in line
    ensures RawFields(line, true) == [line]
    decreases |line|
  {
    if |line| > 0 {
      assert '"' !in line[1..] by {
        forall k | 0 <= k < |line| - 1 ensures line[1..][k] != '"' {
          assert line[1..][k] == line[k + 1];
        }
      }
      QuotedKeepsCommas(line[1..]);
      assert line == [line[0]] + line[1..];
    }
  }

  /** The characters of a trimmed text come from the text. */
  lemma TrimKeepsChars(s: string, c: char)
    requires c in Trim(s)
    ensures c in s
  {
    var t := TrimStart(s);
    var r := TrimEnd(t);
    var k :| 0 <= k < |r| && r[k] == c;
    assert r[k] == t[k] == s[|s| - |t| + k];
  }

  /** Every value of a line is trimmed and holds no double quote. */
  lemma LineValues(line: string)
    ensures forall k :: 0 <= k < |ParseLine(line)| ==>
      Trim(ParseLine(line)[k]) == ParseLine(line)[k] && '"' !in ParseLine(line)[k]
  {
    var raw := RawFields(line, false);
    NoQuotes(line, false);
    forall k | 0 <= k < |raw|
      ensures Trim(ParseLine(line)[k]) == ParseLine(line)[k] && '"' !in ParseLine(line)[k]
    {
      TrimIdempotent(raw[k]);
      if '"' in Trim(raw[k]) {
        TrimKeepsChars(raw[k], '"');
      }
    }
  }

  /** A line has one value more than it has commas outside quotes. */
  lemma LineFieldCount(line: string)
    ensures |ParseLine(line)| == 1 + CommasOutside(line, false)
  {
    FieldCount(line, false);
  }

  /** A line with neither quotes nor commas is a single value, itself trimmed. */
  lemma SingleValue(line: string)
    requires '"' !in line && ',' !in line
    ensures ParseLine(line) == [Trim(line)]
  {
    UnquotedSplits(line);
    SplitWithout(line, ',');
    var values := TrimAll(RawFields(line, false));
    assert |values| == 1 && values[0] == Trim(line);
  }

  /** Splitting a text that lacks the separator leaves it whole. */
  lemma {:induction false} SplitWithout(s: string, sep: char)
    requires sep !in s
    ensures SplitOn(s, sep) == [s]
    decreases |s|
  {
    if |s| > 0 {
      assert sep !in s[1..] by {
        forall k | 0 <= k < |s| - 1 ensures s[1..][k] != sep {
          assert s[1..][k] == s[k + 1];
        }
      }
      SplitWithout(s[1..], sep);
      assert s == [s[0]] + s[1..];
    }
  }

  // ------------------------------------------------------------------ the whole text

  /** A line that `trim` does not reduce to nothing. */
  predicate NonBlank(line: string) {
    Trim(line) != ""
  }

  /** The values of every non-blank line, in order. */
  function ParseLines(lines: seq<string>): (rows: seq<seq<string>>)
    ensures |rows| <= |lines|
    decreases |lines|
  {
    if |lines| == 0 then []
    else (if NonBlank(lines[0]) then [ParseLine(lines[0])] else []) + ParseLines(lines[1..])
  }

  /** `parseCSV`: the rows of the text's non-blank lines. */
  function ParseCSV(text: string): (rows: seq<seq<string>>)
    ensures forall k :: 0 <= k < |rows| ==> |rows[k]| >= 1
  {
    RowsAreLines(SplitOn(text, '\n'));
    ParseLines(SplitOn(text, '\n'))
  }

  /** The rows are the parsed non-blank lines, one row per line, in order. */
  lemma {:induction false} RowsAreLines(lines: seq<string>)
    ensures |ParseLines(lines)| == |Filter(lines, NonBlank)|
    ensures forall k :: 0 <= k < |ParseLines(lines)| ==> ParseLines(lines)[k] == ParseLine(Filter(lines, NonBlank)[k])
    decreases |lines|
  {
    if |lines| > 0 {
      RowsAreLines(lines[1..]);
    }
  }

  /** Each row of the text is a parsed non-blank line, so no value spans a line feed. */
  lemma RowsOfText(text: string)
    ensures |ParseCSV(text)| == |Filter(SplitOn(text, '\n'), NonBlank)|
    ensures forall k :: 0 <= k < |ParseCSV(text)| ==>
      ParseCSV(text)[k] == ParseLine(Filter(SplitOn(text, '\n'), NonBlank)[k])
      && '\n' !in Filter(SplitOn(text, '\n'), NonBlank)[k]
  {
    var lines := SplitOn(text, '\n');
    RowsAreLines(lines);
    FilterMembers(lines, NonBlank);
    forall k | 0 <= k < |Filter(lines, NonBlank)| ensures '\n' !in Filter(lines, NonBlank)[k] {
      assert Filter(lines, NonBlank)[k] in Filter(lines, NonBlank);
    }
  }

  /** A text of only blank lines has no rows. */
  lemma BlankText(text: string)
    requires forall k :: 0 <= k < |text| ==> IsSpace(text[k])
    ensures ParseCSV(text) == []
  {
    var lines := SplitOn(text, '\n');
    BlankParts(text, '\n');
    forall line | line in lines ensures !NonBlank(line) { }
    FilterDropsAll(lines, NonBlank);
    RowsAreLines(lines);
  }

  /** Splitting a text of whitespace gives parts that trim to nothing. */
  lemma {:induction false} BlankParts(s: string, sep: char)
    requires forall k :: 0 <= k < |s| ==> IsSpace(s[k])
    ensures forall k :: 0 <= k < |SplitOn(s, sep)| ==> Trim(SplitOn(s, sep)[k]) == ""
    decreases |s|
  {
    if |s| > 0 {
      var rest := SplitOn(s[1..], sep);
      assert forall k :: 0 <= k < |s| - 1 ==> s[1..][k] == s[k + 1];
      BlankParts(s[1..], sep);
      if s[0] != sep {
        var first := [s[0]] + rest[0];
        TrimBlank(rest[0]);
        TrimBlank(first);
        var parts := SplitOn(s, sep);
        forall k | 0 <= k < |parts| ensures Trim(parts[k]) == "" {
          if k > 0 {
            assert parts[k] == rest[k];
          }
        }
      }
    }
  }
}
