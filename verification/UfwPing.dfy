// Blocking ping in ufw's before.rules: one function rewrites the targets of the ICMP rules,
// another reads from the same text whether ping is blocked.
module UfwPing {
  import opened Basics
  import opened Text

  datatype Section = Nowhere | Input | Forward

  // ---------- String searches ----------

  predicate At(s: string, i: int, p: string) {
    0 <= i <= |s| - |p| && s[i..i + |p|] == p
  }

  predicate Contains(s: string, p: string) {
    exists i: int :: 0 <= i <= |s| && At(s, i, p)
  }

  predicate HasPrefix(s: string, p: string) {
    At(s, 0, p)
  }

  predicate HasSuffix(s: string, p: string) {
    At(s, |s| - |p|, p)
  }

  // ---------- Classifying lines ----------

  function HeaderSection(line: string): Section {
    if Contains(line, "# ok icmp codes for INPUT") then Input
    else if Contains(line, "# ok icmp code for FORWARD") then Forward
    else Nowhere
  }

  predicate RuleMatchesSection(line: string, section: Section) {
    Contains(line, "-p icmp") &&
    match section
    case Input => Contains(line, "-A ufw-before-input ")
    case Forward => Contains(line, "-A ufw-before-forward ")
    case Nowhere => false
  }

  // What a trimmed line is to both functions.
  datatype Kind = Header(section: Section) | Blank | Comment | Rule | ForeignIcmp | Unrelated

  function KindOf(trimmed: string, section: Section): Kind {
    if HeaderSection(trimmed) != Nowhere then Header(HeaderSection(trimmed))
    else if trimmed == "" then Blank
    else if HasPrefix(trimmed, "#") then Comment
    else if RuleMatchesSection(trimmed, section) then Rule
    else if section != Nowhere && Contains(trimmed, "-p icmp") then ForeignIcmp
    else Unrelated
  }

  function NextSection(kind: Kind, section: Section): Section {
    match kind
    case Header(s) => s
    case Blank | ForeignIcmp => Nowhere
    case Comment | Rule | Unrelated => section
  }

  // ---------- Targets ----------

  /** ` -j (ACCEPT|DROP)$` */
  predicate HasTarget(line: string) {
    HasSuffix(line, " -j ACCEPT") || HasSuffix(line, " -j DROP")
  }

  function Target(block: bool): string {
    if block then "DROP" else "ACCEPT"
  }

  /** The line up to its target word. */
  function Stem(line: string): string
    requires HasTarget(line)
  {
    line[..|line| - if HasSuffix(line, " -j DROP") then 4 else 6]
  }

  function Retargeted(line: string, block: bool): string {
    if HasTarget(line) then Stem(line) + Target(block) else line
  }

  // ---------- The two functions ----------

  function NewLine(line: string, section: Section, block: bool): string {
    if KindOf(Trim(line), section).Rule? && HasTarget(Trim(line)) then Retargeted(Trim(line), block) else line
  }

  function After(line: string, section: Section): Section {
    NextSection(KindOf(Trim(line), section), section)
  }

  function Rewritten(lines: seq<string>, section: Section, block: bool): (r: seq<string>)
    ensures |r| == |lines|
  {
    if lines == [] then []
    else [NewLine(lines[0], section, block)] + Rewritten(lines[1..], After(lines[0], section), block)
  }

  /** The first in-section echo-request rule, trimmed. */
  function FirstEcho(lines: seq<string>, section: Section): Option<string> {
    if lines == [] then None
    else
      var t := Trim(lines[0]);
      var kind := KindOf(t, section);
      if kind.Rule? && Contains(t, "echo-request") then Some(t) else FirstEcho(lines[1..], After(lines[0], section))
  }

  function Blocked(lines: seq<string>, section: Section): bool {
    var echo := FirstEcho(lines, section);
    echo.Some? && HasSuffix(echo.value, "-j DROP")
  }

  lemma RewriteOne(done: seq<string>, line: string, rest: seq<string>, section: Section, block: bool)
    ensures var x, whole := NewLine(line, section, block), [line] + rest;
            && done + Rewritten(whole, section, block) == (done + [x]) + Rewritten(rest, After(line, section), block)
            && (done + whole)[|done| := x] == (done + [x]) + rest && (done + whole)[|done|] == line
  {
    hide NewLine, After;
    assert ([line] + rest)[1..] == rest;
  }

  lemma NothingLeft(section: Section, block: bool)
    ensures Rewritten([], section, block) == []
  {
  }

  /** One turn of the writer's loop. */
  method RewriteLine(lines: seq<string>, i: nat, section: Section, block: bool) returns (next: Section, edited: seq<string>)
    requires i < |lines|
    ensures next == After(lines[i], section) && edited == lines[i := NewLine(lines[i], section, block)]
  {
    hide Contains, HasPrefix, Stem, Retargeted, HasTarget, Trim;
    next, edited := section, lines;
    var trimmed := Trim(lines[i]);
    assert lines[i := lines[i]] == lines;
    var header := HeaderSection(trimmed);
    if header != Nowhere {
      next := header;
      return;
    }
    if trimmed == "" {
      next := Nowhere;
      return;
    }
    if HasPrefix(trimmed, "#") {
      return;
    }
    if !RuleMatchesSection(trimmed, section) {
      if section != Nowhere && Contains(trimmed, "-p icmp") {
        next := Nowhere;
      }
      return;
    }
    if HasTarget(trimmed) {
      edited := lines[i := Retargeted(trimmed, block)];
    }
  }

  method SetUFWBlockPingIn(data: string, block: bool) returns (written: string)
    ensures written == Join(Rewritten(Split(data), Nowhere, block))
  {
    var lines := Split(data);
    var section := Nowhere;
    ghost var before, done := lines, [];
    hide Split, Join, Rewritten, NewLine, After;
    for i := 0 to |lines|
      invariant |lines| == |before| && |done| == i && lines == done + before[i..]
      invariant done + Rewritten(before[i..], section, block) == Rewritten(before, Nowhere, block)
    {
      ghost var line, rest := before[i], before[i + 1..];
      assert before[i..] == [line] + rest;
      assert lines == done + ([line] + rest);
      RewriteOne(done, line, rest, section, block);
      ghost var x := NewLine(line, section, block);
      section, lines := RewriteLine(lines, i, section, block);
      done := done + [x];
    }
    NothingLeft(section, block);
    written := Join(lines);
  }

  method UfwPingBlockedIn(data: string) returns (blocked: bool)
    ensures blocked <==> Blocked(Split(data), Nowhere)
  {
    var lines := Split(data);
    var section := Nowhere;
    hide Contains, HasSuffix, HasPrefix, Split, HeaderSection, RuleMatchesSection;
    for i := 0 to |lines|
      invariant FirstEcho(lines[i..], section) == FirstEcho(lines, Nowhere)
    {
      assert lines[i..][0] == lines[i] && lines[i..][1..] == lines[i + 1..];
      var trimmed := Trim(lines[i]);
      var header := HeaderSection(trimmed);
      if header != Nowhere {
        section := header;
        continue;
      }
      if trimmed == "" {
        section := Nowhere;
        continue;
      }
      if HasPrefix(trimmed, "#") {
        continue;
      }
      if !RuleMatchesSection(trimmed, section) {
        if section != Nowhere && Contains(trimmed, "-p icmp") {
          section := Nowhere;
        }
        continue;
      }
      if Contains(trimmed, "echo-request") {
        return HasSuffix(trimmed, "-j DROP");
      }
    }
    blocked := false;
  }

  // ---------- Retargeting changes no search result ----------

  /** No occurrence of p can reach into the word behind ` -j `. */
  ghost predicate StaysOut(p: string) {
    |p| > 6 && forall k | 0 <= k < |p| - 1 :: !(p[k] == ' ' && (p[k + 1] == 'A' || p[k + 1] == 'D'))
  }

  predicate IsTarget(t: string) {
    t == "ACCEPT" || t == "DROP"
  }

  lemma ReachesIn(stem: string, a: string, p: string, i: int)
    requires stem != "" && stem[|stem| - 1] == ' ' && IsTarget(a) && |p| > 6
    requires At(stem + a, i, p) && i + |p| > |stem|
    ensures !StaysOut(p)
  {
    var s, k := stem + a, |stem| - 1 - i;
    assert s[i..i + |p|][k] == s[|stem| - 1] && s[i..i + |p|][k + 1] == s[|stem|];
    assert p[k] == ' ' && p[k + 1] == a[0];
  }

  lemma Swapped(stem: string, a: string, b: string, p: string)
    requires stem != "" && stem[|stem| - 1] == ' ' && IsTarget(a) && IsTarget(b) && StaysOut(p)
    requires Contains(stem + a, p)
    ensures Contains(stem + b, p)
  {
    var s := stem + a;
    var i: int :| 0 <= i <= |s| && At(s, i, p);
    if i + |p| > |stem| {
      ReachesIn(stem, a, p, i);
    } else {
      assert (stem + b)[i..i + |p|] == stem[i..i + |p|] == s[i..i + |p|];
      assert At(stem + b, i, p);
    }
  }

  lemma PatternsStayOut()
    ensures StaysOut("# ok icmp codes for INPUT") && StaysOut("# ok icmp code for FORWARD") && StaysOut("-p icmp")
    ensures StaysOut("-A ufw-before-input ") && StaysOut("-A ufw-before-forward ") && StaysOut("echo-request")
  {
  }

  lemma SuffixSplit(s: string, p: string)
    requires HasSuffix(s, p)
    ensures |p| <= |s| && s == s[..|s| - |p|] + p
  {
    assert s[|s| - |p|..] == s[|s| - |p|..|s| - |p| + |p|];
  }

  lemma SuffixOf(base: string, p: string)
    ensures HasSuffix(base + p, p)
  {
  }

  lemma StemSplit(line: string) returns (base: string, t: string)
    requires HasTarget(line)
    ensures IsTarget(t) && line == base + " -j " + t && Stem(line) == base + " -j "
  {
    t := if HasSuffix(line, " -j DROP") then "DROP" else "ACCEPT";
    assert " -j DROP" == " -j " + "DROP" && " -j ACCEPT" == " -j " + "ACCEPT";
    SuffixSplit(line, " -j " + t);
    base := line[..|line| - 4 - |t|];
    hide HasSuffix;
    assert line == base + (" -j " + t);
    assert base + (" -j " + t) == base + " -j " + t;
  }

  lemma SearchKept(line: string, block: bool, p: string)
    requires HasTarget(line) && StaysOut(p)
    ensures Contains(Retargeted(line, block), p) <==> Contains(line, p)
  {
    var base, t := StemSplit(line);
    var stem := Stem(line);
    hide HasTarget, Stem, StaysOut, Contains;
    if Contains(line, p) {
      Swapped(stem, t, Target(block), p);
    }
    if Contains(Retargeted(line, block), p) {
      Swapped(stem, Target(block), t, p);
    }
  }

  lemma WithTarget(base: string, block: bool)
    ensures var r := base + " -j " + Target(block);
            HasTarget(r) && Stem(r) == base + " -j " && (HasSuffix(r, "-j DROP") <==> block)
  {
    var r := base + " -j " + Target(block);
    if block {
      assert r == base + " -j DROP" && r == (base + " ") + "-j DROP";
      SuffixOf(base, " -j DROP");
      SuffixOf(base + " ", "-j DROP");
    } else {
      assert r == base + " -j ACCEPT";
      SuffixOf(base, " -j ACCEPT");
      NotDrop(r, " -j DROP");
      NotDrop(r, "-j DROP");
    }
    hide HasSuffix;
  }

  lemma NotDrop(r: string, p: string)
    requires r != "" && r[|r| - 1] == 'T' && p != "" && p[|p| - 1] == 'P'
    ensures !HasSuffix(r, p)
  {
    if HasSuffix(r, p) {
      SuffixSplit(r, p);
    }
  }

  /** A retargeted rule is still a trimmed line with a target, begins as before, and reads as
      blocked exactly if that was asked for. */
  lemma RetargetedShape(line: string, block: bool)
    requires HasTarget(line) && Trimmed(line)
    ensures var r := Retargeted(line, block);
            && r != "" && Trimmed(r) && r[0] == line[0] && HasTarget(r) && Stem(r) == Stem(line)
            && (HasSuffix(r, "-j DROP") <==> block)
  {
    var base, t := StemSplit(line);
    WithTarget(base, block);
    hide HasTarget, Stem, HasSuffix;
    assert line[0] == (base + " ")[0];
  }

  // ---------- The rewrite keeps the structure of the file ----------

  /** A retargeted rule is classified as it was, in any section. */
  lemma KindKept(line: string, block: bool, section: Section)
    requires HasTarget(line) && Trimmed(line) && line != ""
    ensures KindOf(Retargeted(line, block), section) == KindOf(line, section)
    ensures Contains(Retargeted(line, block), "echo-request") <==> Contains(line, "echo-request")
  {
    PatternsStayOut();
    SearchKept(line, block, "# ok icmp codes for INPUT");
    SearchKept(line, block, "# ok icmp code for FORWARD");
    SearchKept(line, block, "-p icmp");
    SearchKept(line, block, "-A ufw-before-input ");
    SearchKept(line, block, "-A ufw-before-forward ");
    SearchKept(line, block, "echo-request");
    RetargetedShape(line, block);
    HashKept(line, Retargeted(line, block));
    hide Contains, HasPrefix, HasTarget, Retargeted, StaysOut;
  }

  lemma HashKept(a: string, b: string)
    requires a != "" && b != "" && a[0] == b[0]
    ensures HasPrefix(a, "#") <==> HasPrefix(b, "#")
  {
    assert a[0..1] == [a[0]] && b[0..1] == [b[0]];
  }

  lemma TargetNotEmpty(line: string)
    requires HasTarget(line)
    ensures line != ""
  {
  }

  predicate Rewritable(line: string, section: Section) {
    KindOf(Trim(line), section).Rule? && HasTarget(Trim(line))
  }

  /** One line: what the rewritten one is, trimmed; its kind; and that rewriting it again only
      depends on the last choice. */
  lemma LineKept(line: string, section: Section, block: bool, again: bool)
    ensures var x := NewLine(line, section, block);
            && Trim(x) == (if Rewritable(line, section) then Retargeted(Trim(line), block) else Trim(line))
            && KindOf(Trim(x), section) == KindOf(Trim(line), section)
            && (Contains(Trim(x), "echo-request") <==> Contains(Trim(line), "echo-request"))
            && NewLine(x, section, again) == NewLine(line, section, again)
  {
    TrimIsTrimmed(line);
    var t := Trim(line);
    if Rewritable(line, section) {
      TargetNotEmpty(t);
      KindKept(t, block, section);
      RetargetedShape(t, block);
      TrimIff(Retargeted(t, block));
    }
    hide Contains, KindOf, HasTarget, Trim, Trimmed, HasSuffix, Stem;
  }

  /** The section in which line i is read. */
  function SectionAt(lines: seq<string>, section: Section, i: nat): Section
    requires i <= |lines|
  {
    if i == 0 then section else SectionAt(lines[1..], After(lines[0], section), i - 1)
  }

  function KindAt(lines: seq<string>, section: Section, i: nat): Kind
    requires i < |lines|
  {
    KindOf(Trim(lines[i]), SectionAt(lines, section, i))
  }

  lemma {:induction false} SectionsKept(lines: seq<string>, section: Section, block: bool, i: nat)
    requires i < |lines|
    ensures var r := Rewritten(lines, section, block);
            SectionAt(r, section, i) == SectionAt(lines, section, i)
            && r[i] == NewLine(lines[i], SectionAt(lines, section, i), block)
  {
    if i > 0 {
      SectionKept(lines[0], section, block);
      var r := Rewritten(lines, section, block);
      assert r[1..] == Rewritten(lines[1..], After(lines[0], section), block);
      SectionsKept(lines[1..], After(lines[0], section), block, i - 1);
    }
    hide After, NewLine;
  }

  lemma SectionKept(line: string, section: Section, block: bool)
    ensures After(NewLine(line, section, block), section) == After(line, section)
  {
    LineKept(line, section, block, block);
    hide KindOf, NewLine, Contains;
  }

  /** The rewrite changes no line's section and no line's kind; it touches only rules with a
      target, and of those only the word at the end (and surrounding white space). */
  lemma StructureKept(lines: seq<string>, section: Section, block: bool, i: nat)
    requires i < |lines|
    ensures var r := Rewritten(lines, section, block);
            && SectionAt(r, section, i) == SectionAt(lines, section, i)
            && KindAt(r, section, i) == KindAt(lines, section, i)
            && (if KindAt(lines, section, i).Rule? && HasTarget(Trim(lines[i]))
                then r[i] == Stem(Trim(lines[i])) + Target(block) else r[i] == lines[i])
  {
    SectionsKept(lines, section, block, i);
    LineKept(lines[i], SectionAt(lines, section, i), block, block);
    hide Rewritten, SectionAt, KindOf, HasTarget, Trim, Contains, Stem;
  }

  /** The last choice wins; in particular the rewrite is idempotent. */
  lemma {:induction false} LastRewriteWins(lines: seq<string>, section: Section, block: bool, again: bool)
    ensures Rewritten(Rewritten(lines, section, block), section, again) == Rewritten(lines, section, again)
  {
    if lines != [] {
      LineKept(lines[0], section, block, again);
      var r := Rewritten(lines, section, block);
      assert r[1..] == Rewritten(lines[1..], After(lines[0], section), block);
      LastRewriteWins(lines[1..], After(lines[0], section), block, again);
      hide KindOf, NewLine, Contains;
    }
  }

  // ---------- The reader after the writer ----------

  lemma {:induction false} EchoRewritten(lines: seq<string>, section: Section, block: bool)
    ensures var echo := FirstEcho(lines, section);
            FirstEcho(Rewritten(lines, section, block), section)
            == if echo.Some? then Some(Retargeted(echo.value, block)) else None
    ensures FirstEcho(lines, section).Some? ==> Trimmed(FirstEcho(lines, section).value)
  {
    if lines != [] {
      LineKept(lines[0], section, block, block);
      TrimIsTrimmed(lines[0]);
      var r := Rewritten(lines, section, block);
      assert r[1..] == Rewritten(lines[1..], After(lines[0], section), block);
      EchoRewritten(lines[1..], After(lines[0], section), block);
      hide KindOf, HasTarget, Trim, Trimmed, Contains, Stem;
    }
  }

  /** The first in-section echo-request rule ends in ` -j ACCEPT` or ` -j DROP`. */
  predicate Controllable(lines: seq<string>) {
    var echo := FirstEcho(lines, Nowhere);
    echo.Some? && HasTarget(echo.value)
  }

  lemma ReadsBack(lines: seq<string>, block: bool)
    ensures Blocked(Rewritten(lines, Nowhere, block), Nowhere)
            <==> if Controllable(lines) then block else Blocked(lines, Nowhere)
  {
    EchoRewritten(lines, Nowhere, block);
    if Controllable(lines) {
      RetargetedShape(FirstEcho(lines, Nowhere).value, block);
    }
    hide HasTarget, HasSuffix, Stem, Rewritten, FirstEcho;
  }

  lemma RewrittenLines(lines: seq<string>, section: Section, block: bool)
    requires forall i | 0 <= i < |lines| :: OnePart(lines[i])
    ensures forall i | 0 <= i < |lines| :: OnePart(Rewritten(lines, section, block)[i])
  {
    var r := Rewritten(lines, section, block);
    forall i | 0 <= i < |lines|
      ensures OnePart(r[i])
    {
      StructureKept(lines, section, block, i);
      TrimPart(lines[i]);
      if KindAt(lines, section, i).Rule? && HasTarget(Trim(lines[i])) {
        assert forall c | c in Stem(Trim(lines[i])) :: c in Trim(lines[i]);
      }
      hide KindOf, HasTarget, Trim, Rewritten, SectionAt;
    }
  }

  lemma TrimPart(s: string)
    ensures forall c | c in Trim(s) :: c in s
  {
    LeftPart(s);
    RightPart(TrimLeft(s));
  }

  lemma {:induction false} LeftPart(s: string)
    ensures forall c | c in TrimLeft(s) :: c in s
  {
    if s != "" && IsSpace(s[0]) {
      LeftPart(s[1..]);
    }
  }

  lemma {:induction false} RightPart(s: string)
    ensures forall c | c in TrimRight(s) :: c in s
  {
    if s != "" && IsSpace(s[|s| - 1]) {
      RightPart(s[..|s| - 1]);
    }
  }

  /** On whole files: after setting `block` the reader answers `block` if the first echo-request
      rule is one the writer can rewrite; otherwise it answers as before. So the two agree if
      and only if that rule is rewritable or the answer already was `block`. */
  lemma SetThenGet(data: string, block: bool)
    ensures var written := Join(Rewritten(Split(data), Nowhere, block));
            && Split(written) == Rewritten(Split(data), Nowhere, block)
            && ((Blocked(Split(written), Nowhere) <==> block)
                <==> Controllable(Split(data)) || (Blocked(Split(data), Nowhere) <==> block))
  {
    var lines := Split(data);
    JoinSplit(data);
    RewrittenLines(lines, Nowhere, block);
    SplitJoin(Rewritten(lines, Nowhere, block));
    ReadsBack(lines, block);
    hide Rewritten, Split, Join, Blocked, Controllable;
  }

  /** Setting twice on whole files is setting once, to the last choice. */
  lemma SetTwice(data: string, block: bool, again: bool)
    ensures Join(Rewritten(Split(Join(Rewritten(Split(data), Nowhere, block))), Nowhere, again))
            == Join(Rewritten(Split(data), Nowhere, again))
  {
    SetThenGet(data, block);
    LastRewriteWins(Split(data), Nowhere, block, again);
    hide Rewritten, Split, Join, Blocked, Controllable;
  }

  // ---------- Which lines a section covers ----------

  /** A line that leaves an open section open: not blank, no header, and if it is a rule for icmp
      then one of the section's chain. */
  predicate Continues(line: string, section: Section)
    requires section != Nowhere
  {
    var t := Trim(line);
    && t != "" && !Contains(t, "# ok icmp codes for INPUT") && !Contains(t, "# ok icmp code for FORWARD")
    && (HasPrefix(t, "#") || !Contains(t, "-p icmp")
        || Contains(t, if section == Input then "-A ufw-before-input " else "-A ufw-before-forward "))
  }

  /** Line i lies behind the section's header, which is line j, with nothing in between that ends
      the section. */
  ghost predicate Covers(lines: seq<string>, j: int, i: int, section: Section)
    requires section != Nowhere
  {
    && 0 <= j < i <= |lines|
    && HeaderSection(Trim(lines[j])) == section
    && forall k | j < k < i :: Continues(lines[k], section)
  }

  ghost predicate Covered(lines: seq<string>, i: int, section: Section)
    requires section != Nowhere
  {
    exists j :: Covers(lines, j, i, section)
  }

  lemma ContinuesIff(line: string, section: Section)
    requires section != Nowhere && HeaderSection(Trim(line)) == Nowhere
    ensures After(line, section) == if Continues(line, section) then section else Nowhere
  {
    hide Contains, Trim, HasPrefix;
  }

  lemma AfterLine(line: string, before: Section)
    ensures var h := HeaderSection(Trim(line));
            && (h != Nowhere ==> After(line, before) == h)
            && (h == Nowhere && before == Nowhere ==> After(line, before) == Nowhere)
  {
    hide Contains, Trim, HasPrefix;
  }

  lemma {:induction false} SectionAtStep(lines: seq<string>, section: Section, i: nat)
    requires i < |lines|
    ensures SectionAt(lines, section, i + 1) == After(lines[i], SectionAt(lines, section, i))
  {
    hide After;
    if i > 0 {
      SectionAtStep(lines[1..], After(lines[0], section), i - 1);
    }
  }

  lemma HeaderEnds(line: string, section: Section)
    requires section != Nowhere && HeaderSection(Trim(line)) != Nowhere
    ensures !Continues(line, section)
  {
    hide Contains, Trim, HasPrefix;
  }

  /** A line is read in a section exactly if it lies behind a header of that section with nothing in
      between that ends it: no blank line, no header, no icmp rule of another chain. */
  lemma {:induction false} InSectionIff(lines: seq<string>, section: Section, i: nat)
    requires i <= |lines| && section != Nowhere
    ensures SectionAt(lines, Nowhere, i) == section <==> Covered(lines, i, section)
  {
    hide After, HeaderSection, Continues, Trim, Covered, Covers;
    if i == 0 {
      NotCoveredAtStart(lines, section);
    } else {
      InSectionIff(lines, section, i - 1);
      SectionAtStep(lines, Nowhere, i - 1);
      CoveredStep(lines, section, i);
      OneLine(lines[i - 1], SectionAt(lines, Nowhere, i - 1), section);
      hide SectionAt;
    }
  }

  lemma OneLine(line: string, before: Section, section: Section)
    requires section != Nowhere
    ensures var header := HeaderSection(Trim(line)) == section;
            After(line, before) == section <==> header || (Continues(line, section) && before == section)
  {
    hide After, HeaderSection, Continues, Trim;
    AfterLine(line, before);
    if HeaderSection(Trim(line)) != Nowhere {
      HeaderEnds(line, section);
    } else if before != Nowhere {
      ContinuesIff(line, before);
    }
  }

  lemma NotCoveredAtStart(lines: seq<string>, section: Section)
    requires section != Nowhere
    ensures !Covered(lines, 0, section)
  {
    hide HeaderSection, Continues, Trim;
  }

  lemma CoveredStep(lines: seq<string>, section: Section, i: nat)
    requires 0 < i <= |lines| && section != Nowhere
    ensures var header := HeaderSection(Trim(lines[i - 1])) == section;
            Covered(lines, i, section) <==> header || (Continues(lines[i - 1], section) && Covered(lines, i - 1, section))
  {
    hide HeaderSection, Continues, Trim;
    if HeaderSection(Trim(lines[i - 1])) == section {
      assert Covers(lines, i - 1, i, section);
    } else if Continues(lines[i - 1], section) && Covered(lines, i - 1, section) {
      var j :| Covers(lines, j, i - 1, section);
      assert Covers(lines, j, i, section);
    }
    if j :| Covers(lines, j, i, section) {
      assert j < i - 1 ==> Covers(lines, j, i - 1, section);
    }
  }

  // ---------- Both sections, each a header and its echo-request rule ----------

  function HeaderLine(section: Section): string
    requires section != Nowhere
  {
    if section == Input then "# ok icmp codes for INPUT" else "# ok icmp code for FORWARD"
  }

  function Chain(section: Section): string
    requires section != Nowhere
  {
    if section == Input then "-A ufw-before-input " else "-A ufw-before-forward "
  }

  function EchoBase(section: Section): string
    requires section != Nowhere
  {
    Chain(section) + "-p icmp" + " --icmp-type echo-request"
  }

  function EchoRule(section: Section, block: bool): string
    requires section != Nowhere
  {
    EchoBase(section) + " -j " + Target(block)
  }

  lemma ContainsPart(a: string, p: string, b: string)
    ensures Contains(a + p + b, p)
  {
    assert At(a + p + b, |a|, p);
  }

  lemma FirstIn(s: string, p: string)
    requires p != ""
    ensures Contains(s, p) ==> p[0] in s
  {
    if Contains(s, p) {
      var i: int :| 0 <= i <= |s| && At(s, i, p);
      assert s[i] == s[i..i + |p|][0];
    }
  }

  lemma PartsOf(chain: string, p: string, mid: string, end: string)
    ensures var r := chain + p + mid + end; Contains(r, chain) && Contains(r, p)
  {
    var r := chain + p + mid + end;
    ContainsPart("", chain, p + mid + end);
    ContainsPart(chain, p, mid + end);
    hide Contains;
    assert r == "" + chain + (p + mid + end);
    assert r == chain + p + (mid + end);
  }

  lemma EchoIn(a: string, end: string)
    ensures Contains(a + " --icmp-type echo-request" + end, "echo-request")
  {
    ContainsPart(a + " --icmp-type ", "echo-request", end);
    hide Contains;
    assert " --icmp-type echo-request" == " --icmp-type " + "echo-request";
    assert a + " --icmp-type echo-request" + end == a + " --icmp-type " + "echo-request" + end;
  }

  lemma NoHash(section: Section, block: bool)
    requires section != Nowhere
    ensures '#' !in EchoRule(section, block)
  {
    var chain: string := "-A ufw-before-input ";
    var chain': string := "-A ufw-before-forward ";
    var p: string, mid: string, j: string := "-p icmp", " --icmp-type echo-request", " -j ";
    assert '#' !in chain && '#' !in chain' && '#' !in p && '#' !in mid && '#' !in j;
    assert '#' !in Target(block);
  }

  lemma EchoRuleFinds(section: Section, block: bool)
    requires section != Nowhere
    ensures var r := EchoRule(section, block);
            Contains(r, "-p icmp") && Contains(r, Chain(section)) && Contains(r, "echo-request") && r != "" && r[0] == '-'
  {
    var end := " -j " + Target(block);
    hide Contains, Target, Chain;
    PartsOf(Chain(section), "-p icmp", " --icmp-type echo-request", end);
    EchoIn(Chain(section) + "-p icmp", end);
    ChainStarts(section);
    assert EchoRule(section, block) == Chain(section) + "-p icmp" + " --icmp-type echo-request" + end;
  }

  lemma EchoRuleKind(section: Section, block: bool)
    requires section != Nowhere
    ensures var r := EchoRule(section, block); KindOf(r, section) == Rule && Contains(r, "echo-request") && r != "" && r[0] == '-'
  {
    hide Contains, EchoRule, Chain, HasPrefix;
    var r := EchoRule(section, block);
    NoHash(section, block);
    FirstIn(r, "# ok icmp codes for INPUT");
    FirstIn(r, "# ok icmp code for FORWARD");
    HashFirst(r);
    EchoRuleFinds(section, block);
    ChainIs(section);
  }

  lemma HashFirst(r: string)
    ensures HasPrefix(r, "#") ==> '#' in r
  {
    if HasPrefix(r, "#") {
      assert r[0] == r[0..1][0];
    }
  }

  lemma ChainStarts(section: Section)
    requires section != Nowhere
    ensures Chain(section) != "" && Chain(section)[0] == '-'
  {
  }

  lemma ChainIs(section: Section)
    requires section != Nowhere
    ensures Chain(section) == if section == Input then "-A ufw-before-input " else "-A ufw-before-forward "
  {
  }

  lemma EchoRuleShape(section: Section, block: bool)
    requires section != Nowhere
    ensures var r := EchoRule(section, block);
            && HasTarget(r) && Stem(r) == EchoBase(section) + " -j " && (HasSuffix(r, "-j DROP") <==> block) && Trim(r) == r
  {
    var r := EchoRule(section, block);
    EchoRuleKind(section, block);
    WithTarget(EchoBase(section), block);
    EndsPlain(EchoBase(section) + " -j ", block);
    TrimIff(r);
    hide EchoBase, Target, Trim, HasTarget, Stem, HasSuffix, Contains, KindOf;
  }

  lemma EndsPlain(stem: string, block: bool)
    ensures var r := stem + Target(block); r != "" && !IsSpace(r[|r| - 1])
  {
  }

  lemma HeaderKind(section: Section)
    requires section != Nowhere
    ensures var h := HeaderLine(section);
            Trim(h) == h && HeaderSection(h) == section
  {
    var h := HeaderLine(section);
    TrimIff(h);
    assert At(h, 0, h);
    hide Trim;
    if section == Forward {
      assert forall i: int | 0 <= i <= |h| :: !At(h, i, "# ok icmp codes for INPUT") by {
        forall i: int | 0 <= i <= |h| ensures !At(h, i, "# ok icmp codes for INPUT") {
          NotInputHeader(i);
        }
      }
    }
  }

  lemma CharAt(s: string, i: int, p: string, k: nat)
    ensures At(s, i, p) && k < |p| ==> s[i + k] == p[k]
  {
    if At(s, i, p) && k < |p| {
      assert s[i..i + |p|][k] == s[i + k];
    }
  }

  lemma NotInputHeader(i: int)
    ensures !At("# ok icmp code for FORWARD", i, "# ok icmp codes for INPUT")
  {
    CharAt("# ok icmp code for FORWARD", i, "# ok icmp codes for INPUT", 14);
  }

  lemma HeaderStep(section: Section, before: Section, block: bool)
    requires section != Nowhere
    ensures NewLine(HeaderLine(section), before, block) == HeaderLine(section) && After(HeaderLine(section), before) == section
    ensures !KindOf(Trim(HeaderLine(section)), before).Rule?
  {
    HeaderKind(section);
    hide HeaderSection, Trim, HeaderLine;
  }

  lemma EchoStep(section: Section, was: bool, block: bool)
    requires section != Nowhere
    ensures var line := EchoRule(section, was);
            && NewLine(line, section, block) == EchoRule(section, block) && After(line, section) == section
            && Trim(line) == line && KindOf(line, section) == Rule && Contains(line, "echo-request")
            && (HasSuffix(line, "-j DROP") <==> was)
  {
    EchoRuleKind(section, was);
    EchoRuleShape(section, was);
    hide KindOf, Trim, Contains, HasTarget, Stem, EchoBase, HasSuffix, Target;
  }

  function Shipped(block: bool): seq<string> {
    [HeaderLine(Input), EchoRule(Input, block), HeaderLine(Forward), EchoRule(Forward, block)]
  }

  lemma ShippedRewrite(was: bool, block: bool)
    ensures Rewritten(Shipped(was), Nowhere, block) == Shipped(block)
  {
    hide NewLine, After, EchoRule, HeaderLine, Rewritten;
    SectionRewrite(Input, Nowhere, was, block, [HeaderLine(Forward), EchoRule(Forward, was)]);
    SectionRewrite(Forward, Input, was, block, []);
    NothingLeft(Forward, block);
    assert [HeaderLine(Forward), EchoRule(Forward, was)] + [] == [HeaderLine(Forward), EchoRule(Forward, was)];
    assert Shipped(was) == [HeaderLine(Input), EchoRule(Input, was)] + [HeaderLine(Forward), EchoRule(Forward, was)];
  }

  lemma SectionRewrite(section: Section, before: Section, was: bool, block: bool, rest: seq<string>)
    requires section != Nowhere
    ensures Rewritten([HeaderLine(section), EchoRule(section, was)] + rest, before, block)
              == [HeaderLine(section), EchoRule(section, block)] + Rewritten(rest, section, block)
  {
    var h, e := HeaderLine(section), EchoRule(section, was);
    HeaderStep(section, before, block);
    EchoStep(section, was, block);
    RewriteOne([], h, [e] + rest, before, block);
    RewriteOne([h], e, rest, section, block);
    hide NewLine, After, EchoRule, HeaderLine, Rewritten, KindOf, Trim, Contains, HasSuffix;
    assert [h, e] + rest == [h] + ([e] + rest);
    assert [] + Rewritten([h] + ([e] + rest), before, block) == Rewritten([h] + ([e] + rest), before, block);
    assert [] + [h] == [h] && [h] + [EchoRule(section, block)] == [h, EchoRule(section, block)];
  }

  lemma ShippedRead(was: bool)
    ensures Blocked(Shipped(was), Nowhere) <==> was
  {
    hide NewLine, After, EchoRule, HeaderLine, KindOf, Trim, Contains, HasSuffix;
    HeaderStep(Input, Nowhere, was);
    EchoStep(Input, was, was);
    assert FirstEcho(Shipped(was)[1..], Input) == Some(EchoRule(Input, was));
  }

  /** Both echo-request rules get the target asked for, nothing else changes, and the reader tells
      which one they have. */
  lemma ShippedFile(was: bool, block: bool)
    ensures Rewritten(Shipped(was), Nowhere, block) == Shipped(block) && (Blocked(Shipped(block), Nowhere) <==> block)
  {
    ShippedRewrite(was, block);
    ShippedRead(block);
    hide Rewritten, Blocked, Shipped;
  }
}
