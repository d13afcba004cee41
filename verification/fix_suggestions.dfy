/**
  The fix-suggestion text of the risk engine (`generateFixSuggestions` in
  `lib/sps-rules.ts`). Without violations it is a fixed sentence. Otherwise
  a banner is followed by up to three sections, critical, warnings and
  improvements, each present only when it has violations, listing them
  numbered from 1 in their original order.

  The text is modelled as a layout of blocks, headings and numbered items,
  rendered one block after the other; the properties are stated on the
  layout. The source file's emoji are stored as UTF-8 bytes read as
  Windows-1252 characters, and the strings here keep those characters.
*/
module FixSuggestions {
  import opened Seqs
  import opened Strings
  import opened RiskModel

  /** The sentence for a listing without violations (written in two parts so its first letter is easy to see). */
  const NoFixesNeeded: string := "Your listing " + "looks great! No immediate fixes needed."

  const Banner: string := "\U{00F0}\U{0178}\U{201C}\U{2039} Recommended Fixes:\n\n"

  const Arrow: string := "\U{00E2}\U{2020}\U{2019}"

  /** The heading that opens the section of a severity. */
  function HeadingText(s: Severity): string {
    match s
    case Critical => "\U{00F0}\U{0178}\U{0161}\U{00A8} CRITICAL (Fix Immediately):\n"
    case Warning => "\U{00E2}\U{0161}\U{00A0}\U{00EF}\U{00B8}  WARNINGS (Fix Soon):\n"
    case Info => "\U{00E2}\U{201E}\U{00B9}\U{00EF}\U{00B8}  IMPROVEMENTS (Optimize):\n"
  }

  /** The `n`-th entry of a section: number, title, then an arrow and the suggestion. */
  function ItemText(n: nat, v: Violation): string {
    NatToString(n) + ". " + v.Title() + "\n   " + Arrow + " " + v.Suggestion() + "\n\n"
  }

  /** A piece of the text: a section heading or a numbered entry. */
  datatype Block = Heading(severity: Severity) | Item(number: nat, violation: Violation)

  function BlockText(b: Block): string {
    match b
    case Heading(s) => HeadingText(s)
    case Item(n, v) => ItemText(n, v)
  }

  /** The blocks' texts, one after the other. */
  function Render(blocks: seq<Block>): string
    decreases |blocks|
  {
    if |blocks| == 0 then "" else BlockText(blocks[0]) + Render(blocks[1..])
  }

  function OfSeverity(s: Severity): Violation -> bool {
    (v: Violation) => v.Severity() == s
  }

  /** Entries for `vs`, numbered from `start` on. */
  function Numbered(vs: seq<Violation>, start: nat): (bs: seq<Block>)
    ensures |bs| == |vs|
    ensures forall j :: 0 <= j < |vs| ==> bs[j] == Item(start + j, vs[j])
    decreases |vs|
  {
    if |vs| == 0 then [] else [Item(start, vs[0])] + Numbered(vs[1..], start + 1)
  }

  /** The section of one severity: nothing when no violation has it, else its heading and its entries from 1. */
  function Section(s: Severity, vs: seq<Violation>): seq<Block> {
    var xs := Filter(vs, OfSeverity(s));
    if |xs| == 0 then [] else [Heading(s)] + Numbered(xs, 1)
  }

  /** The critical, warning and improvement sections, in that order. */
  function Layout(vs: seq<Violation>): seq<Block> {
    Section(Critical, vs) + Section(Warning, vs) + Section(Info, vs)
  }

  /** The suggestion text; the listing is not consulted. */
  function GenerateFixSuggestions(analysis: RiskAnalysis, listing: Listing): (text: string)
    ensures text == NoFixesNeeded <==> |analysis.violations| == 0
  {
    if |analysis.violations| == 0 then NoFixesNeeded
    else
      BannerFirst(Render(Layout(analysis.violations)));
      Banner + Render(Layout(analysis.violations))
  }

  /** Text opening with the banner is never the no-fixes sentence. */
  lemma BannerFirst(rest: string)
    ensures Banner + rest != NoFixesNeeded
  {
    assert NoFixesNeeded[0] == 'Y';
    assert (Banner + rest)[0] == '\U{00F0}';
  }

  // ------------------------------------------------------------------ the layout

  /** The violations of the entries among `bs`, in order. */
  function ItemsOf(bs: seq<Block>): seq<Violation>
    decreases |bs|
  {
    if |bs| == 0 then []
    else (if bs[0].Item? then [bs[0].violation] else []) + ItemsOf(bs[1..])
  }

  lemma {:induction false} ItemsOfAppend(a: seq<Block>, b: seq<Block>)
    ensures ItemsOf(a + b) == ItemsOf(a) + ItemsOf(b)
    decreases |a|
  {
    if |a| == 0 {
      assert a + b == b;
    } else {
      var head := if a[0].Item? then [a[0].violation] else [];
      assert (a + b)[0] == a[0];
      assert (a + b)[1..] == a[1..] + b;
      ItemsOfAppend(a[1..], b);
      assert ItemsOf(a + b) == head + ItemsOf(a[1..] + b);
      assert head + (ItemsOf(a[1..]) + ItemsOf(b)) == (head + ItemsOf(a[1..])) + ItemsOf(b);
    }
  }

  lemma {:induction false} ItemsOfNumbered(vs: seq<Violation>, start: nat)
    ensures ItemsOf(Numbered(vs, start)) == vs
    decreases |vs|
  {
    if |vs| > 0 {
      ItemsOfNumbered(vs[1..], start + 1);
    }
  }

  /** A section lists exactly the violations of its severity, in order. */
  lemma SectionItems(s: Severity, vs: seq<Violation>)
    ensures ItemsOf(Section(s, vs)) == Filter(vs, OfSeverity(s))
  {
    var xs := Filter(vs, OfSeverity(s));
    if |xs| > 0 {
      ItemsOfNumbered(xs, 1);
      assert Section(s, vs) == [Heading(s)] + Numbered(xs, 1);
      ItemsOfAppend([Heading(s)], Numbered(xs, 1));
    }
  }

  /** Splitting by the three severities loses and duplicates nothing. */
  lemma {:induction false} SeveritiesPartition(vs: seq<Violation>)
    ensures multiset(Filter(vs, OfSeverity(Critical)) + Filter(vs, OfSeverity(Warning)) + Filter(vs, OfSeverity(Info)))
         == multiset(vs)
    decreases |vs|
  {
    if |vs| > 0 {
      var v, rest := vs[0], vs[1..];
      SeveritiesPartition(rest);
      var c, w, i := Filter(vs, OfSeverity(Critical)), Filter(vs, OfSeverity(Warning)), Filter(vs, OfSeverity(Info));
      var c', w', i' := Filter(rest, OfSeverity(Critical)), Filter(rest, OfSeverity(Warning)), Filter(rest, OfSeverity(Info));
      assert c == (if v.Severity() == Critical then [v] else []) + c';
      assert w == (if v.Severity() == Warning then [v] else []) + w';
      assert i == (if v.Severity() == Info then [v] else []) + i';
      assert multiset(c + w + i) == multiset(c) + multiset(w) + multiset(i);
      assert multiset(c' + w' + i') == multiset(c') + multiset(w') + multiset(i');
      assert vs == [v] + rest;
    }
  }

  /** Every violation is listed, as often as it occurs: the entries are a permutation of the violations. */
  lemma EveryViolationListed(vs: seq<Violation>)
    ensures multiset(ItemsOf(Layout(vs))) == multiset(vs)
  {
    var c, w, i := Section(Critical, vs), Section(Warning, vs), Section(Info, vs);
    ItemsOfAppend(c + w, i);
    ItemsOfAppend(c, w);
    SectionItems(Critical, vs);
    SectionItems(Warning, vs);
    SectionItems(Info, vs);
    SeveritiesPartition(vs);
  }

  /** Each entry sits in the section of its own severity. */
  lemma SectionSeverity(s: Severity, vs: seq<Violation>)
    ensures forall v :: v in ItemsOf(Section(s, vs)) ==> v.Severity() == s && v in vs
  {
    SectionItems(s, vs);
    FilterMembers(vs, OfSeverity(s));
  }

  /** A section holds a heading only of its own severity, and one exactly when it is present. */
  lemma HeadingInSection(s: Severity, t: Severity, vs: seq<Violation>)
    ensures Heading(s) in Section(t, vs) <==> s == t && |Filter(vs, OfSeverity(t))| > 0
  {
    var xs := Filter(vs, OfSeverity(t));
    if |xs| > 0 {
      assert Section(t, vs)[0] == Heading(t);
    }
  }

  /** Some violation has severity `s` exactly when the filter for `s` keeps one. */
  lemma SeverityKept(s: Severity, vs: seq<Violation>)
    ensures |Filter(vs, OfSeverity(s))| > 0 <==> exists v :: v in vs && v.Severity() == s
  {
    FilterMembers(vs, OfSeverity(s));
    var xs := Filter(vs, OfSeverity(s));
    if |xs| > 0 {
      assert xs[0] in xs;
    }
    if exists v :: v in vs && v.Severity() == s {
      var v :| v in vs && v.Severity() == s;
      assert v in xs;
    }
  }

  /** A section's heading appears exactly when some violation has its severity. */
  lemma HeadingPresent(s: Severity, vs: seq<Violation>)
    ensures Heading(s) in Layout(vs) <==> exists v :: v in vs && v.Severity() == s
  {
    HeadingInSection(s, Critical, vs);
    HeadingInSection(s, Warning, vs);
    HeadingInSection(s, Info, vs);
    SeverityKept(s, vs);
  }

  /** In a present section, the heading comes first and the `j`-th entry carries number `j + 1`. */
  lemma SectionNumbering(s: Severity, vs: seq<Violation>)
    requires |Filter(vs, OfSeverity(s))| > 0
    ensures Section(s, vs)[0] == Heading(s)
    ensures forall j :: 0 <= j < |Filter(vs, OfSeverity(s))| ==>
      Section(s, vs)[j + 1] == Item(j + 1, Filter(vs, OfSeverity(s))[j])
  {
  }
}
