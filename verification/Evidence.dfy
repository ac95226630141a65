/** Counting test evidence: JUnit reports, summary lines, and the verdict on one check. */
module Evidence {
  import opened Outcomes
  import opened PublicationRows

  // ---- reports ----

  datatype Tag = SUITE | SUITES | CASE | FAILURE | ERROR | SKIP | OTHER

  datatype Attributes = Attributes(
    status: Option<string>, result: Option<string>,
    tests: Option<string>, failures: Option<string>, errors: Option<string>, skipped: Option<string>)

  datatype Element = Element(tag: Tag, attributes: Attributes, children: seq<Element>)

  const MAX_XML_DEPTH: nat := 64
  const MAX_XML_ELEMENTS: nat := 100_000

  // ---- the stream of events and its limits ----

  datatype Event = Start | End

  function Events(e: Element): seq<Event> {
    [Start] + AllEvents(e.children) + [End]
  }

  function AllEvents(children: seq<Element>): seq<Event> {
    if children == [] then [] else Events(children[0]) + AllEvents(children[1..])
  }

  function Max(a: nat, b: nat): nat {
    if a < b then b else a
  }

  function Height(e: Element): nat {
    1 + MaxHeight(e.children)
  }

  function MaxHeight(children: seq<Element>): nat {
    if children == [] then 0 else Max(Height(children[0]), MaxHeight(children[1..]))
  }

  function Size(e: Element): nat {
    1 + TotalSize(e.children)
  }

  function TotalSize(children: seq<Element>): nat {
    if children == [] then 0 else Size(children[0]) + TotalSize(children[1..])
  }

  function Starts(events: seq<Event>): nat {
    if events == [] then 0 else Starts(events[..|events| - 1]) + if events[|events| - 1] == Start then 1 else 0
  }

  /** How deep the stream is after its events; ends count against starts. */
  function Depth(events: seq<Event>): int {
    if events == [] then 0 else Depth(events[..|events| - 1]) + if events[|events| - 1] == Start then 1 else -1
  }

  /** The stream never gets deeper than this. */
  predicate NeverDeeper(events: seq<Event>, limit: int) {
    forall i | 0 <= i <= |events| :: Depth(events[..i]) <= limit
  }

  lemma {:induction false} DepthAdds(a: seq<Event>, b: seq<Event>)
    ensures Depth(a + b) == Depth(a) + Depth(b) && Starts(a + b) == Starts(a) + Starts(b)
    decreases |b|
  {
    if b == [] {
      assert a + b == a;
    } else {
      DepthAdds(a, b[..|b| - 1]);
      assert (a + b)[..|a + b| - 1] == a + b[..|b| - 1];
    }
  }

  lemma NeverDeeperAdds(a: seq<Event>, b: seq<Event>, limit: int)
    ensures NeverDeeper(a + b, limit) <==> NeverDeeper(a, limit) && NeverDeeper(b, limit - Depth(a))
  {
    forall i | 0 <= i <= |a| ensures (a + b)[..i] == a[..i] {
    }
    forall i | 0 <= i <= |b| ensures Depth((a + b)[..|a| + i]) == Depth(a) + Depth(b[..i]) {
      assert (a + b)[..|a| + i] == a + b[..i];
      DepthAdds(a, b[..i]);
    }
    if NeverDeeper(a + b, limit) {
      forall i | 0 <= i <= |a| ensures Depth(a[..i]) <= limit {
        assert Depth((a + b)[..i]) <= limit;
      }
      forall i | 0 <= i <= |b| ensures Depth(b[..i]) <= limit - Depth(a) {
        assert Depth((a + b)[..|a| + i]) <= limit;
      }
    }
    if NeverDeeper(a, limit) && NeverDeeper(b, limit - Depth(a)) {
      forall i | 0 <= i <= |a + b| ensures Depth((a + b)[..i]) <= limit {
        if i > |a| {
          assert Depth(b[..i - |a|]) <= limit - Depth(a);
          assert Depth((a + b)[..|a| + (i - |a|)]) == Depth(a) + Depth(b[..i - |a|]);
        } else {
          assert Depth(a[..i]) <= limit;
        }
      }
    }
  }

  /** The events of an element are balanced, as many as it has elements and as deep as it is high. */
  lemma {:induction false} EventsMeasure(e: Element, limit: int)
    ensures Depth(Events(e)) == 0 && Starts(Events(e)) == Size(e)
    ensures limit >= 0 ==> (NeverDeeper(Events(e), limit) <==> Height(e) <= limit)
  {
    var inner := AllEvents(e.children);
    AllEventsMeasure(e.children, limit - 1);
    Single(Start);
    Single(End);
    DepthAdds([Start], inner);
    DepthAdds([Start] + inner, [End]);
    if limit >= 0 {
      NeverDeeperAdds([Start] + inner, [End], limit);
      NeverDeeperAdds([Start], inner, limit);
      SingleDeep(limit);
      if limit == 0 {
        assert !NeverDeeper([Start], 0);
      }
    }
  }

  lemma Single(x: Event)
    ensures Depth([x]) == (if x == Start then 1 else -1) && Starts([x]) == if x == Start then 1 else 0
  {
    assert [x][..0] == [];
  }

  lemma SingleDeep(limit: int)
    requires limit >= 0
    ensures NeverDeeper([Start], limit) <==> limit >= 1
    ensures limit >= 1 ==> NeverDeeper([End], limit - 1)
  {
    Single(Start);
    Single(End);
    assert [Start][..0] == [] && [Start][..1] == [Start] && [End][..0] == [] && [End][..1] == [End];
    if NeverDeeper([Start], limit) {
      assert Depth([Start][..1]) <= limit;
    }
  }

  lemma {:induction false} AllEventsMeasure(children: seq<Element>, limit: int)
    ensures Depth(AllEvents(children)) == 0 && Starts(AllEvents(children)) == TotalSize(children)
    ensures limit >= 0 ==> (NeverDeeper(AllEvents(children), limit) <==> MaxHeight(children) <= limit)
  {
    if children == [] {
      Nothing(limit);
    } else {
      EventsMeasure(children[0], limit);
      AllEventsMeasure(children[1..], limit);
      Sibling(Events(children[0]), AllEvents(children[1..]), limit);
    }
  }

  lemma Nothing(limit: int)
    ensures limit >= 0 ==> NeverDeeper([], limit)
  {
    var none: seq<Event> := [];
    assert none[..0] == none;
  }

  lemma Sibling(a: seq<Event>, b: seq<Event>, limit: int)
    requires Depth(a) == 0
    ensures Depth(a + b) == Depth(b) && Starts(a + b) == Starts(a) + Starts(b)
    ensures NeverDeeper(a + b, limit) <==> NeverDeeper(a, limit) && NeverDeeper(b, limit)
  {
    DepthAdds(a, b);
    NeverDeeperAdds(a, b, limit);
  }

  /** Reads the stream once and stops at the first event beyond the limits. */
  method WithinLimits(root: Element) returns (ok: bool)
    ensures ok <==> Height(root) <= MAX_XML_DEPTH && Size(root) <= MAX_XML_ELEMENTS
  {
    var events := Events(root);
    EventsMeasure(root, MAX_XML_DEPTH);
    var depth, count, i := 0, 0, 0;
    assert events[..0] == [];
    while i < |events|
      invariant 0 <= i <= |events|
      invariant depth == Depth(events[..i]) && count == Starts(events[..i]) && count <= MAX_XML_ELEMENTS
      invariant forall k | 0 <= k <= i :: Depth(events[..k]) <= MAX_XML_DEPTH
    {
      assert events[..i + 1][..i] == events[..i];
      if events[i] == Start {
        depth, count := depth + 1, count + 1;
        if depth > MAX_XML_DEPTH || count > MAX_XML_ELEMENTS {
          assert Depth(events[..i + 1]) == depth && Starts(events[..i + 1]) == count;
          assert events == events[..i + 1] + events[i + 1..];
          DepthAdds(events[..i + 1], events[i + 1..]);
          return false;
        }
      } else {
        depth := depth - 1;
      }
      i := i + 1;
    }
    assert events[..i] == events;
    return true;
  }

  // ---- elements and cases ----

  /** An element and everything in it, in document order. */
  function Flatten(e: Element): (all: seq<Element>)
    ensures e in all
  {
    [e] + FlattenAll(e.children)
  }

  function FlattenAll(children: seq<Element>): seq<Element> {
    if children == [] then [] else Flatten(children[0]) + FlattenAll(children[1..])
  }

  predicate IsSuite(e: Element) {
    e.tag == SUITE || e.tag == SUITES
  }

  predicate MayContain(parent: Element, child: Element) {
    && (child.tag == CASE ==> parent.tag == SUITE)
    && (IsSuite(child) ==> IsSuite(parent))
    && (child.tag in {FAILURE, ERROR, SKIP} ==> parent.tag == CASE)
  }

  predicate HasChild(e: Element, tag: Tag) {
    exists i | 0 <= i < |e.children| :: e.children[i].tag == tag
  }

  predicate Failure(e: Element) {
    HasChild(e, FAILURE)
  }

  predicate Errored(e: Element) {
    HasChild(e, ERROR)
  }

  predicate Failed(e: Element) {
    Failure(e) || Errored(e)
  }

  predicate Skipped(e: Element) {
    || HasChild(e, SKIP)
    || e.attributes.status in {Some("notrun"), Some("skipped"), Some("disabled")}
    || e.attributes.result in {Some("suppressed"), Some("skipped")}
  }

  predicate Passed(e: Element) {
    !Failed(e) && !Skipped(e)
  }

  predicate Anything(e: Element) {
    true
  }

  /** The attributes of a case are known ones, and it is not both skipped and failed. */
  predicate CaseFits(e: Element) {
    && e.attributes.status in {None, Some("run"), Some("notrun"), Some("skipped"), Some("disabled")}
    && e.attributes.result in {None, Some("completed"), Some("suppressed"), Some("skipped")}
    && !(Skipped(e) && Failed(e))
  }

  // ---- counting ----

  /** The cases of a subtree with a property, counted along its structure. */
  function Recount(e: Element, p: Element -> bool): nat {
    (if e.tag == CASE && p(e) then 1 else 0) + RecountAll(e.children, p)
  }

  function RecountAll(children: seq<Element>, p: Element -> bool): nat {
    if children == [] then 0 else Recount(children[0], p) + RecountAll(children[1..], p)
  }

  /** The same along a list of elements. */
  function CountIn(all: seq<Element>, p: Element -> bool): nat {
    if all == [] then 0
    else CountIn(all[..|all| - 1], p) + if all[|all| - 1].tag == CASE && p(all[|all| - 1]) then 1 else 0
  }

  lemma {:induction false} CountAdds(a: seq<Element>, b: seq<Element>, p: Element -> bool)
    ensures CountIn(a + b, p) == CountIn(a, p) + CountIn(b, p)
    decreases |b|
  {
    if b == [] {
      assert a + b == a;
    } else {
      CountAdds(a, b[..|b| - 1], p);
      assert (a + b)[..|a + b| - 1] == a + b[..|b| - 1];
    }
  }

  /** Counting the flattened subtree is counting along its structure. */
  lemma {:induction false} CountIsRecount(e: Element, p: Element -> bool)
    ensures CountIn(Flatten(e), p) == Recount(e, p)
  {
    AllCountIsRecount(e.children, p);
    CountAdds([e], FlattenAll(e.children), p);
    assert [e][..0] == [];
  }

  lemma {:induction false} AllCountIsRecount(children: seq<Element>, p: Element -> bool)
    ensures CountIn(FlattenAll(children), p) == RecountAll(children, p)
  {
    if children != [] {
      CountIsRecount(children[0], p);
      AllCountIsRecount(children[1..], p);
      CountAdds(Flatten(children[0]), FlattenAll(children[1..]), p);
    }
  }

  method CountCases(e: Element, p: Element -> bool) returns (n: nat)
    ensures n == Recount(e, p)
  {
    var all := Flatten(e);
    n := 0;
    var i := 0;
    while i < |all|
      invariant 0 <= i <= |all| && n == CountIn(all[..i], p)
    {
      assert all[..i + 1][..i] == all[..i];
      if all[i].tag == CASE && p(all[i]) {
        n := n + 1;
      }
      i := i + 1;
    }
    assert all[..i] == all;
    CountIsRecount(e, p);
  }

  predicate CasesFit(all: seq<Element>) {
    forall i | 0 <= i < |all| && all[i].tag == CASE :: CaseFits(all[i])
  }

  lemma {:induction false} PartitionIn(all: seq<Element>)
    requires CasesFit(all)
    ensures CountIn(all, Anything) == CountIn(all, Passed) + CountIn(all, Failed) + CountIn(all, Skipped)
  {
    if all != [] {
      var rest, last := all[..|all| - 1], all[|all| - 1];
      assert CasesFit(rest);
      PartitionIn(rest);
      assert last.tag == CASE ==> CaseFits(last);
    }
  }

  /** In an accepted report the passed, failed and skipped cases partition the cases of every subtree. */
  lemma Partition(e: Element)
    requires CasesFit(Flatten(e))
    ensures Recount(e, Anything) == Recount(e, Passed) + Recount(e, Failed) + Recount(e, Skipped)
  {
    PartitionIn(Flatten(e));
    CountIsRecount(e, Anything);
    CountIsRecount(e, Passed);
    CountIsRecount(e, Failed);
    CountIsRecount(e, Skipped);
  }

  // ---- declared totals ----

  predicate IsDigits(s: string) {
    s != "" && forall i | 0 <= i < |s| :: '0' <= s[i] <= '9'
  }

  function DigitsValue(s: string): nat
    requires forall i | 0 <= i < |s| :: '0' <= s[i] <= '9'
  {
    if s == "" then 0 else DigitsValue(s[..|s| - 1]) * 10 + (s[|s| - 1] as int - '0' as int)
  }

  /** A total that is not declared, or is declared as a short number with this value. */
  predicate Declares(declared: Option<string>, value: nat) {
    declared.Some? ==> |declared.value| <= 9 && IsDigits(declared.value) && DigitsValue(declared.value) == value
  }

  /** Every total this suite declares is the recount of its subtree. */
  predicate TotalsFit(e: Element) {
    && Declares(e.attributes.tests, Recount(e, Anything))
    && Declares(e.attributes.failures, Recount(e, Failure))
    && Declares(e.attributes.errors, Recount(e, Errored))
    && Declares(e.attributes.skipped, Recount(e, Skipped))
  }

  predicate StructureFits(e: Element) {
    forall i | 0 <= i < |e.children| :: MayContain(e, e.children[i])
  }

  predicate Accepted(root: Element) {
    && Height(root) <= MAX_XML_DEPTH && Size(root) <= MAX_XML_ELEMENTS
    && IsSuite(root)
    && (forall i | 0 <= i < |Flatten(root)| :: StructureFits(Flatten(root)[i]))
    && CasesFit(Flatten(root))
    && (forall i | 0 <= i < |Flatten(root)| && IsSuite(Flatten(root)[i]) :: TotalsFit(Flatten(root)[i]))
  }

  datatype Counts = Counts(collected: nat, passed: nat, failed: nat, skipped: nat)

  method SuiteTotals(suite: Element) returns (ok: bool)
    ensures ok <==> TotalsFit(suite)
  {
    var tests := CountCases(suite, Anything);
    var failures := CountCases(suite, Failure);
    var errors := CountCases(suite, Errored);
    var skipped := CountCases(suite, Skipped);
    ok := Declares(suite.attributes.tests, tests) && Declares(suite.attributes.failures, failures)
          && Declares(suite.attributes.errors, errors) && Declares(suite.attributes.skipped, skipped);
  }

  /** The counts of a report, or its refusal. */
  method JunitCounts(root: Element) returns (r: Option<Counts>)
    ensures r.Some? <==> Accepted(root)
    ensures r.Some? ==> r.value == Counts(Recount(root, Anything), Recount(root, Passed), Recount(root, Failed),
                                          Recount(root, Skipped))
    ensures r.Some? ==> r.value.collected == r.value.passed + r.value.failed + r.value.skipped
  {
    var small := WithinLimits(root);
    if !small || !IsSuite(root) {
      return None;
    }
    var all := Flatten(root);
    var i := 0;
    while i < |all|
      invariant 0 <= i <= |all|
      invariant forall k | 0 <= k < i :: StructureFits(all[k]) && (all[k].tag == CASE ==> CaseFits(all[k]))
    {
      if !StructureFits(all[i]) || (all[i].tag == CASE && !CaseFits(all[i])) {
        return None;
      }
      i := i + 1;
    }
    i := 0;
    while i < |all|
      invariant 0 <= i <= |all|
      invariant forall k | 0 <= k < i && IsSuite(all[k]) :: TotalsFit(all[k])
    {
      if IsSuite(all[i]) {
        var ok := SuiteTotals(all[i]);
        if !ok {
          return None;
        }
      }
      i := i + 1;
    }
    Partition(root);
    var cases := CountCases(root, Anything);
    var failed := CountCases(root, Failed);
    var skipped := CountCases(root, Skipped);
    return Some(Counts(cases, cases - failed - skipped, failed, skipped));
  }

  /** At any nesting: the declared tests of a suite are its own cases and the recounts of what it contains. */
  lemma NestedTotals(root: Element, i: nat)
    requires Accepted(root) && i < |Flatten(root)| && IsSuite(Flatten(root)[i])
             && Flatten(root)[i].attributes.tests.Some?
    ensures var suite := Flatten(root)[i];
            && IsDigits(suite.attributes.tests.value)
            && DigitsValue(suite.attributes.tests.value) == RecountAll(suite.children, Anything)
            && RecountAll(suite.children, Anything) ==
               RecountAll(suite.children, Passed) + RecountAll(suite.children, Failed)
                 + RecountAll(suite.children, Skipped)
  {
    var suite := Flatten(root)[i];
    assert TotalsFit(suite);
    WithinFits(root, suite);
    Partition(suite);
  }

  /** What lies in an element lies in everything around it. */
  lemma {:induction false} FlattenNests(e: Element, x: Element, y: Element)
    requires x in Flatten(e) && y in Flatten(x)
    ensures y in Flatten(e)
  {
    if x != e {
      assert x in FlattenAll(e.children);
      AllFlattenNests(e.children, x, y);
    }
  }

  lemma {:induction false} AllFlattenNests(children: seq<Element>, x: Element, y: Element)
    requires x in FlattenAll(children) && y in Flatten(x)
    ensures y in FlattenAll(children)
  {
    if x in Flatten(children[0]) {
      FlattenNests(children[0], x, y);
    } else {
      AllFlattenNests(children[1..], x, y);
    }
  }

  lemma WithinFits(root: Element, x: Element)
    requires CasesFit(Flatten(root)) && x in Flatten(root)
    ensures CasesFit(Flatten(x))
  {
    forall i | 0 <= i < |Flatten(x)| && Flatten(x)[i].tag == CASE ensures CaseFits(Flatten(x)[i]) {
      FlattenNests(root, x, Flatten(x)[i]);
    }
  }

  // ---- the summary line of a test runner ----

  datatype Kind = PASSED | FAILED | SKIPPED | XFAILED | XPASSED | DESELECTED | WARNINGS | ERROR_ONE | ERROR_MANY

  datatype Segment = Segment(digits: string, kind: Kind)

  function Value(values: map<Kind, nat>, kind: Kind): nat {
    if kind in values then values[kind] else 0
  }

  predicate SegmentFits(segment: Segment) {
    IsDigits(segment.digits) && |segment.digits| <= 9
  }

  /** The first `n` segments are well-formed numbers, one per kind. */
  predicate FirstFit(segments: seq<Segment>, n: nat)
    requires n <= |segments|
  {
    && (forall i | 0 <= i < n :: SegmentFits(segments[i]))
    && (forall i, k | 0 <= i < k < n :: segments[i].kind != segments[k].kind)
  }

  predicate SegmentsFit(segments: seq<Segment>) {
    segments != [] && FirstFit(segments, |segments|)
  }

  /** The table holds the number of each of the first `n` segments under its kind, and nothing else. */
  predicate Tabulates(table: map<Kind, nat>, segments: seq<Segment>, n: nat)
    requires n <= |segments|
  {
    && (forall i | 0 <= i < n :: segments[i].kind in table)
    && (forall i | 0 <= i < n && SegmentFits(segments[i]) :: table[segments[i].kind] == DigitsValue(segments[i].digits))
    && (forall kind | kind in table :: exists i | 0 <= i < n :: segments[i].kind == kind)
  }

  method ReadSegments(segments: seq<Segment>) returns (r: Option<map<Kind, nat>>)
    ensures r.Some? <==> SegmentsFit(segments)
    ensures r.Some? ==> Tabulates(r.value, segments, |segments|)
  {
    var table: map<Kind, nat> := map[];
    var i := 0;
    while i < |segments|
      invariant 0 <= i <= |segments| && Tabulates(table, segments, i) && FirstFit(segments, i)
    {
      ReadOne(table, segments, i);
      if !SegmentFits(segments[i]) || segments[i].kind in table {
        return None;
      }
      table := table[segments[i].kind := DigitsValue(segments[i].digits)];
      i := i + 1;
    }
    r := if segments == [] then None else Some(table);
  }

  /** The next segment extends the table, or no table exists. */
  lemma ReadOne(table: map<Kind, nat>, segments: seq<Segment>, i: nat)
    requires i < |segments| && Tabulates(table, segments, i) && FirstFit(segments, i)
    ensures if SegmentFits(segments[i]) && segments[i].kind !in table
            then Tabulates(table[segments[i].kind := DigitsValue(segments[i].digits)], segments, i + 1)
              && FirstFit(segments, i + 1)
            else !SegmentsFit(segments)
  {
    if !SegmentFits(segments[i]) {
    } else if segments[i].kind in table {
      KindRepeats(table, segments, i);
    } else {
      TabulatesMore(table, segments, i);
      forall k | 0 <= k < i ensures segments[k].kind != segments[i].kind {
      }
    }
  }

  lemma KindRepeats(table: map<Kind, nat>, segments: seq<Segment>, i: nat)
    requires i < |segments| && Tabulates(table, segments, i) && segments[i].kind in table
    ensures !SegmentsFit(segments)
  {
    var k :| 0 <= k < i && segments[k].kind == segments[i].kind;
  }

  lemma TabulatesMore(table: map<Kind, nat>, segments: seq<Segment>, i: nat)
    requires i < |segments| && Tabulates(table, segments, i) && SegmentFits(segments[i]) && segments[i].kind !in table
    ensures Tabulates(table[segments[i].kind := DigitsValue(segments[i].digits)], segments, i + 1)
  {
  }

  /** Unexpected passes pass, expected failures are skipped, and every kind of error fails. */
  method ParseSegments(segments: seq<Segment>) returns (r: Option<Counts>, table: map<Kind, nat>)
    ensures r.Some? <==> SegmentsFit(segments)
    ensures r.Some? ==>
              && Tabulates(table, segments, |segments|)
              && r.value.passed == Value(table, PASSED) + Value(table, XPASSED)
              && r.value.failed == Value(table, Kind.FAILED) + Value(table, ERROR_ONE) + Value(table, ERROR_MANY)
              && r.value.skipped == Value(table, SKIPPED) + Value(table, XFAILED)
              && r.value.collected == r.value.passed + r.value.failed + r.value.skipped
  {
    var values := ReadSegments(segments);
    if values.None? {
      return None, map[];
    }
    table := values.value;
    var passed := Value(table, PASSED) + Value(table, XPASSED);
    var failed := Value(table, Kind.FAILED) + Value(table, ERROR_ONE) + Value(table, ERROR_MANY);
    var skipped := Value(table, SKIPPED) + Value(table, XFAILED);
    r := Some(Counts(passed + failed + skipped, passed, failed, skipped));
  }

  // ---- the verdict ----

  datatype Parser = NO_PARSER | PYTEST_SUMMARY | JUNIT_XML | UNKNOWN_PARSER

  datatype CommandKind = COMMAND | TEST | OTHER_KIND

  datatype Verdict = PASS | FAIL | TIMEOUT | NOT_RUN | UNVERIFIED

  /** What a finished command left behind. The last summary line and all summary lines are already split;
      `report` is the parsed report file, if there is a readable one. */
  datatype Output = Output(
    timedOut: bool, exitCode: Option<int>, complete: bool,
    lastSummary: Option<Counts>, summaries: seq<Counts>, report: Option<Element>)

  datatype Assessment = Assessment(verdict: Verdict, counts: Option<Counts>)

  method AssessCheck(kind: CommandKind, parser: Parser, version: nat, output: Output) returns (a: Assessment)
    requires output.lastSummary.Some? ==>
               output.lastSummary.value.collected ==
               output.lastSummary.value.passed + output.lastSummary.value.failed + output.lastSummary.value.skipped
    ensures a.verdict == PASS ==> output.exitCode == Some(0) && output.complete && !output.timedOut
    ensures a.verdict == PASS && kind == TEST ==>
              && a.counts.Some? && a.counts.value.passed > 0 && a.counts.value.failed == 0
              && (parser == JUNIT_XML ==>
                    && output.report.Some? && Accepted(output.report.value)
                    && a.counts.value.passed == Recount(output.report.value, Passed)
                    && Recount(output.report.value, Failed) == 0
                    && forall i | 0 <= i < |output.summaries| :: output.summaries[i] == a.counts.value)
    ensures kind == TEST && parser == JUNIT_XML && version == 1 && output.exitCode == Some(0) && output.complete
            && !output.timedOut
            && output.report.Some? && Accepted(output.report.value)
            && (forall i | 0 <= i < |output.summaries| ::
                  output.summaries[i] == Counts(Recount(output.report.value, Anything),
                                                Recount(output.report.value, Passed),
                                                Recount(output.report.value, Failed),
                                                Recount(output.report.value, Skipped))) ==>
              (a.verdict == PASS <==>
               Recount(output.report.value, Failed) == 0 && Recount(output.report.value, Passed) > 0)
  {
    if output.timedOut {
      return Assessment(TIMEOUT, None);
    }
    if output.exitCode.None? {
      return Assessment(NOT_RUN, None);
    }
    if !output.complete {
      return Assessment(UNVERIFIED, None);
    }
    if kind == COMMAND {
      return Assessment(
          if parser != NO_PARSER then UNVERIFIED else if output.exitCode == Some(0) then PASS else FAIL, None);
    }
    if kind != TEST || version != 1 {
      return Assessment(UNVERIFIED, None);
    }
    var counts: Option<Counts> := None;
    if parser == PYTEST_SUMMARY {
      counts := output.lastSummary;
    } else if parser == JUNIT_XML && output.report.Some? {
      counts := JunitCounts(output.report.value);
      if counts.Some? && exists i | 0 <= i < |output.summaries| :: output.summaries[i] != counts.value {
        counts := None;
      }
    }
    if counts.None? || counts.value.collected == 0 || counts.value.collected == counts.value.skipped {
      return Assessment(UNVERIFIED, counts);
    }
    if output.exitCode != Some(0) || counts.value.failed != 0 {
      return Assessment(FAIL, counts);
    }
    return Assessment(PASS, counts);
  }

  /** A TEST check judged PASS on a tree meets the publication's own conditions for that tree. */
  method RecordedCheck(parser: Parser, version: nat, output: Output, config: nat, tree: Sha)
    returns (check: Option<Check>)
    requires output.lastSummary.Some? ==>
               output.lastSummary.value.collected ==
               output.lastSummary.value.passed + output.lastSummary.value.failed + output.lastSummary.value.skipped
    ensures check.Some? && check.value.passed ==> CheckSatisfies(check.value, config, tree, true)
  {
    var a := AssessCheck(TEST, parser, version, output);
    if output.exitCode.None? {
      return None;
    }
    return Some(Check(config, a.verdict == PASS, output.exitCode.value, output.complete, tree,
                      if a.counts.Some? then Some(a.counts.value.passed) else None,
                      if a.counts.Some? then Some(a.counts.value.failed) else None));
  }
}
