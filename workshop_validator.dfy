/**
 * The result bookkeeping of the workshop validation suite, test-workshop.py: the
 * pass/fail tally kept by `test_result`, the prerequisite check, and the figures
 * `generate_report` derives from the recorded results (success rate, category
 * breakdown, failed-test list and recommendation tier).
 */
module WorkshopValidator {
  import opened Wrappers
  import Text

  /** One entry of `results["test_results"]`. */
  datatype TestRecord = TestRecord(test: string, passed: bool, details: string, responseTimeMs: real, timestamp: string)

  /** Number of passing records. */
  function CountPassed(records: seq<TestRecord>): (n: nat)
    ensures n <= |records|
  {
    if records == [] then 0
    else CountPassed(records[..|records| - 1]) + (if records[|records| - 1].passed then 1 else 0)
  }

  /** `[r for r in test_results if not r["passed"]]`. */
  function FailedTests(records: seq<TestRecord>): (f: seq<TestRecord>)
    ensures forall r :: r in f <==> r in records && !r.passed
    ensures |f| == |records| - CountPassed(records)
  {
    if records == [] then []
    else
      var last := records[|records| - 1];
      FailedTests(records[..|records| - 1]) + (if last.passed then [] else [last])
  }

  /** Failed records are kept in recording order: dropping the passing ones from a concatenation. */
  lemma {:induction false} FailedTestsAppend(a: seq<TestRecord>, b: seq<TestRecord>)
    ensures FailedTests(a + b) == FailedTests(a) + FailedTests(b)
    decreases |b|
  {
    if b == [] {
      assert a + b == a;
    } else {
      var b' := b[..|b| - 1];
      assert (a + b)[..|a + b| - 1] == a + b';
      FailedTestsAppend(a, b');
    }
  }

  // ---------------------------------------------------------------------------------
  // The tally
  // ---------------------------------------------------------------------------------

  class Validator {
    var totalTests: nat
    var passedTests: nat
    var failedTests: nat
    var warnings: nat
    var testResults: seq<TestRecord>

    /** total = passed + failed, one record per test, and the passed count agrees with the records. */
    ghost predicate Valid()
      reads this
    {
      totalTests == passedTests + failedTests
      && |testResults| == totalTests
      && passedTests == CountPassed(testResults)
    }

    constructor()
      ensures Valid()
      ensures totalTests == 0 && passedTests == 0 && failedTests == 0 && warnings == 0
      ensures testResults == []
    {
      totalTests := 0;
      passedTests := 0;
      failedTests := 0;
      warnings := 0;
      testResults := [];
    }

    /** `test_result`: one more test, counted as passed or failed, and one more record. */
    method TestResult(name: string, passed: bool, details: string, responseTimeMs: real, timestamp: string)
      requires Valid()
      modifies this
      ensures Valid()
      ensures totalTests == old(totalTests) + 1
      ensures passed ==> passedTests == old(passedTests) + 1 && failedTests == old(failedTests)
      ensures !passed ==> failedTests == old(failedTests) + 1 && passedTests == old(passedTests)
      ensures testResults == old(testResults) + [TestRecord(name, passed, details, responseTimeMs, timestamp)]
      ensures warnings == old(warnings)
    {
      totalTests := totalTests + 1;
      if passed {
        passedTests := passedTests + 1;
      } else {
        failedTests := failedTests + 1;
      }
      var record := TestRecord(name, passed, details, responseTimeMs, timestamp);
      assert (testResults + [record])[..|testResults|] == testResults;
      testResults := testResults + [record];
    }

    /** `results["warnings"] += 1`: a warning changes no test count and no record. */
    method AddWarning()
      requires Valid()
      modifies this
      ensures Valid()
      ensures warnings == old(warnings) + 1
      ensures totalTests == old(totalTests) && passedTests == old(passedTests) && failedTests == old(failedTests)
      ensures testResults == old(testResults)
    {
      warnings := warnings + 1;
    }

    /**
     * `check_prerequisites`: one record per prerequisite, in the fixed order, and the
     * answer is false exactly when a prerequisite other than jq failed.
     */
    method CheckPrerequisites(probe: string -> Probe, timestamp: string) returns (allGood: bool)
      requires Valid()
      modifies this
      ensures Valid()
      ensures |testResults| == |old(testResults)| + |Prerequisites| && testResults[..|old(testResults)|] == old(testResults)
      ensures forall j :: 0 <= j < |Prerequisites| ==>
                testResults[|old(testResults)| + j] == PrerequisiteRecord(Prerequisites[j], probe(Prerequisites[j].command), timestamp)
      ensures allGood <==> forall i :: 0 <= i < |Prerequisites| ==> !Fatal(Prerequisites[i], probe(Prerequisites[i].command))
      ensures warnings == old(warnings)
    {
      allGood := RecordChecks(Prerequisites, probe, timestamp);
    }

    /** The loop of `check_prerequisites`, over the list of checks it walks. */
    method RecordChecks(checks: seq<Prerequisite>, probe: string -> Probe, timestamp: string) returns (allGood: bool)
      requires Valid()
      modifies this
      ensures Valid()
      ensures |testResults| == |old(testResults)| + |checks| && testResults[..|old(testResults)|] == old(testResults)
      ensures forall j :: 0 <= j < |checks| ==>
                testResults[|old(testResults)| + j] == PrerequisiteRecord(checks[j], probe(checks[j].command), timestamp)
      ensures allGood <==> forall i :: 0 <= i < |checks| ==> !Fatal(checks[i], probe(checks[i].command))
      ensures warnings == old(warnings)
    {
      allGood := true;
      ghost var expected := PrerequisiteRecords(checks, probe, timestamp);
      var i := 0;
      while i < |checks|
        invariant 0 <= i <= |checks|
        invariant Valid()
        invariant testResults == old(testResults) + expected[..i]
        invariant allGood <==> forall j :: 0 <= j < i ==> !Fatal(checks[j], probe(checks[j].command))
        invariant warnings == old(warnings)
      {
        var p := checks[i];
        var outcome := probe(p.command);
        var record := PrerequisiteRecord(p, outcome, timestamp);
        ghost var before := testResults;
        TestResult(record.test, record.passed, record.details, 0.0, timestamp);
        assert testResults == before + [expected[i]];
        AppendNext(old(testResults), expected, i);
        ClearThrough(checks, probe, i);
        if Fatal(p, outcome) {
          allGood := false;
        }
        i := i + 1;
      }
      assert expected[..i] == expected;
    }

    /**
     * `generate_report`: the summary figures from the tally, the category breakdown,
     * the failed tests and the tier; `None` where the breakdown raises.
     */
    method GenerateReport() returns (r: Option<Report>)
      requires Valid()
      ensures r.None? <==> !Categorised(testResults)
      ensures r.Some? ==> r.value.total == totalTests && r.value.passed == passedTests && r.value.failed == failedTests
      ensures r.Some? ==> r.value.warnings == warnings
      ensures r.Some? ==> r.value.successRate == SuccessRate(passedTests, totalTests)
      ensures r.Some? ==> r.value.tier == TierOf(r.value.successRate)
      ensures r.Some? ==> (r.value.succeeded <==> totalTests > 0 && passedTests * 100 >= 85 * totalTests)
      ensures r.Some? ==> (r.value.succeeded <==> r.value.tier == Excellent || r.value.tier == Good)
      ensures r.Some? ==> r.value.failedTests == FailedTests(testResults) && |r.value.failedTests| == failedTests
      ensures r.Some? ==> Some(r.value.breakdown) == BreakdownOf(testResults)
      ensures r.Some? ==> TotalOf(r.value.breakdown.order, r.value.breakdown.counts) == totalTests
    {
      var rate := SuccessRate(passedTests, totalTests);
      var breakdown := CategoryBreakdown(testResults);
      BreakdownDefined(testResults);
      if breakdown.None? {
        return None;
      }
      BreakdownTotal(testResults);
      SucceedsExactly(passedTests, totalTests);
      TierOfSuccess(rate);
      r := Some(Report(totalTests, passedTests, failedTests, warnings, rate, rate >= SuccessThreshold,
                       TierOf(rate), breakdown.value, FailedTests(testResults)));
    }
  }

  // ---------------------------------------------------------------------------------
  // Prerequisites
  // ---------------------------------------------------------------------------------

  /** What running `<command> --version` gave. */
  datatype Probe =
    | Found(stdout: string)  // exit status 0
    | NonZeroExit            // the command ran and failed
    | CommandNotFound        // `FileNotFoundError`

  predicate IsNewline(c: char) { c == '\n' }

  predicate IsColon(c: char) { c == ':' }

  datatype Prerequisite = Prerequisite(name: string, command: string)

  const OptionalPrerequisite: string := "jq (optional)"

  const Prerequisites: seq<Prerequisite> := [
    Prerequisite("Docker", "docker"),
    Prerequisite("Python 3.8+", "python3"),
    Prerequisite("curl", "curl"),
    Prerequisite(OptionalPrerequisite, "jq")]

  /** A failure that clears `all_good`: any failure of a prerequisite other than jq. */
  predicate Fatal(p: Prerequisite, outcome: Probe)
  {
    !outcome.Found? && p.name != OptionalPrerequisite
  }

  /** Appending the next expected record extends the recorded prefix by one. */
  lemma AppendNext(prior: seq<TestRecord>, expected: seq<TestRecord>, i: nat)
    requires i < |expected|
    ensures prior + expected[..i] + [expected[i]] == prior + expected[..i + 1]
  {
  }

  /** No fatal failure among the first i + 1 checks: none among the first i, and none at i. */
  lemma ClearThrough(checks: seq<Prerequisite>, probe: string -> Probe, i: nat)
    requires i < |checks|
    ensures (forall j :: 0 <= j < i + 1 ==> !Fatal(checks[j], probe(checks[j].command))) <==>
            (forall j :: 0 <= j < i ==> !Fatal(checks[j], probe(checks[j].command))) && !Fatal(checks[i], probe(checks[i].command))
  {
  }

  /** The records `check_prerequisites` appends, one per check in order. */
  ghost function PrerequisiteRecords(checks: seq<Prerequisite>, probe: string -> Probe, timestamp: string): (rs: seq<TestRecord>)
    ensures |rs| == |checks|
    ensures forall j :: 0 <= j < |checks| ==> rs[j] == PrerequisiteRecord(checks[j], probe(checks[j].command), timestamp)
  {
    if checks == [] then []
    else [PrerequisiteRecord(checks[0], probe(checks[0].command), timestamp)] + PrerequisiteRecords(checks[1..], probe, timestamp)
  }

  /** The record `check_prerequisites` writes for one prerequisite. */
  function PrerequisiteRecord(p: Prerequisite, outcome: Probe, timestamp: string): (r: TestRecord)
    ensures r.test == "Prerequisite: " + p.name
    ensures r.passed <==> outcome.Found?
    ensures outcome.Found? ==> r.details == Text.PrefixBefore(Text.Strip(outcome.stdout), IsNewline)
    ensures outcome.NonZeroExit? ==> r.details == "Not found or error"
    ensures outcome.CommandNotFound? ==> r.details == "Command not found"
  {
    var details := match outcome
      case Found(stdout) => Text.PrefixBefore(Text.Strip(stdout), IsNewline)
      case NonZeroExit => "Not found or error"
      case CommandNotFound => "Command not found";
    TestRecord("Prerequisite: " + p.name, outcome.Found?, details, 0.0, timestamp)
  }

  /** Only jq may be missing: with every other tool found the check passes whatever jq gives. */
  lemma JqIsOptional(probe: string -> Probe)
    requires probe("docker").Found? && probe("python3").Found? && probe("curl").Found?
    ensures forall i :: 0 <= i < |Prerequisites| ==> !Fatal(Prerequisites[i], probe(Prerequisites[i].command))
  {
    assert Prerequisites[3].name == OptionalPrerequisite;
  }

  // ---------------------------------------------------------------------------------
  // Success rate and tiers
  // ---------------------------------------------------------------------------------

  const SuccessThreshold: real := 85.0

  /** `(passed / total * 100) if total > 0 else 0`, exactly. */
  function SuccessRate(passed: nat, total: nat): (rate: real)
    ensures total == 0 ==> rate == 0.0
    ensures total > 0 ==> rate * total as real == passed as real * 100.0
    ensures passed <= total ==> 0.0 <= rate <= 100.0
  {
    if total > 0 then passed as real / total as real * 100.0 else 0.0
  }

  /** Comparing the rate with a threshold is comparing passed·100 with threshold·total. */
  lemma RateAtLeast(passed: nat, total: nat, threshold: real)
    requires total > 0
    ensures SuccessRate(passed, total) >= threshold <==> passed as real * 100.0 >= threshold * total as real
  {
    var rate := SuccessRate(passed, total);
    if rate >= threshold {
      assert rate * total as real >= threshold * total as real;
    }
    if passed as real * 100.0 >= threshold * total as real {
      assert rate * total as real >= threshold * total as real;
    }
  }

  /** The report succeeds exactly when some test ran and at least 85% of them passed. */
  lemma SucceedsExactly(passed: nat, total: nat)
    ensures SuccessRate(passed, total) >= SuccessThreshold <==> total > 0 && passed * 100 >= 85 * total
  {
    if total > 0 {
      RateAtLeast(passed, total, SuccessThreshold);
    }
  }

  datatype Tier = Excellent | Good | Fair | Poor

  /** The recommendation chosen by the `if`/`elif` chain on the rate. */
  function TierOf(rate: real): (t: Tier)
    ensures t == Excellent <==> rate >= 95.0
    ensures t == Good <==> 85.0 <= rate < 95.0
    ensures t == Fair <==> 70.0 <= rate < 85.0
    ensures t == Poor <==> rate < 70.0
  {
    if rate >= 95.0 then Excellent
    else if rate >= 85.0 then Good
    else if rate >= 70.0 then Fair
    else Poor
  }

  /** The returned success agrees with the tier: success iff "Excellent" or "Good". */
  lemma TierOfSuccess(rate: real)
    ensures rate >= SuccessThreshold <==> TierOf(rate) == Excellent || TierOf(rate) == Good
  {
  }

  // ---------------------------------------------------------------------------------
  // Categories
  // ---------------------------------------------------------------------------------

  /**
   * The category of a test name: the text before the first ':' when there is one,
   * otherwise the first whitespace-separated word; `None` for a name made only of
   * whitespace, where `split()[0]` raises.
   */
  function CategoryOf(name: string): (r: Option<string>)
    ensures ':' in name ==> r.Some? && ':' !in r.value && |r.value| < |name|
    ensures r.Some? && ':' !in name ==> r.value != [] && |r.value| <= |name|
  {
    if ':' in name then Some(Text.PrefixBefore(name, IsColon)) else FirstWord(name)
  }

  /** `name.split()[0]`, or `None` where there is no word. */
  function FirstWord(name: string): (r: Option<string>)
    ensures r.Some? ==> r.value != [] && |r.value| <= |name|
  {
    if name == [] then None
    else if Text.IsSpace(name[0]) then FirstWord(name[1..])
    else Some(Text.PrefixBefore(name, Text.IsSpace))
  }

  /** The first word is what remains after the leading whitespace, up to the next whitespace. */
  lemma {:induction false} FirstWordAfterSpace(name: string)
    ensures var t := Text.TrimLeft(name);
            FirstWord(name) == if t == [] then None else Some(Text.PrefixBefore(t, Text.IsSpace))
  {
    if name != [] && Text.IsSpace(name[0]) {
      FirstWordAfterSpace(name[1..]);
    }
  }

  /** With a ':' in the name, the category is the text before the first one. */
  lemma ColonCategory(name: string)
    requires ':' in name
    ensures CategoryOf(name).Some?
    ensures var p := CategoryOf(name).value;
            ':' !in p && |p| < |name| && name[..|p|] == p && name[|p|] == ':'
  {
  }

  /** Without a ':', only an all-whitespace name has no category. */
  lemma BlankHasNoCategory(name: string)
    requires ':' !in name
    ensures CategoryOf(name).None? <==> forall i :: 0 <= i < |name| ==> Text.IsSpace(name[i])
  {
    FirstWordAfterSpace(name);
    var t := Text.TrimLeft(name);
    if t != [] {
      assert !Text.IsSpace(name[|name| - |t|]);
    }
  }

  /**
   * Without a ':', the category is the word after the leading whitespace, up to the
   * next whitespace or the end.
   */
  lemma WordCategory(name: string)
    requires ':' !in name && CategoryOf(name).Some?
    ensures var w := CategoryOf(name).value;
            var k := |name| - |Text.TrimLeft(name)|;
            k < |name| && (forall i :: 0 <= i < k ==> Text.IsSpace(name[i])) && !Text.IsSpace(name[k])
            && w != [] && (forall i :: 0 <= i < |w| ==> !Text.IsSpace(w[i]))
            && k + |w| <= |name| && name[k..k + |w|] == w
            && (k + |w| == |name| || Text.IsSpace(name[k + |w|]))
  {
    FirstWordAfterSpace(name);
    var t := Text.TrimLeft(name);
    var w := Text.PrefixBefore(t, Text.IsSpace);
    var k := |name| - |t|;
    assert t != [] && CategoryOf(name).value == w;
    assert name[k..] == t && name[k] == t[0];
    assert w != [];
    assert name[k..k + |w|] == t[..|w|] == w;
    if k + |w| < |name| {
      assert name[k + |w|] == t[|w|];
    }
  }

  /** Every record has a category, so the breakdown loop runs to the end. */
  ghost predicate Categorised(records: seq<TestRecord>)
  {
    forall j :: 0 <= j < |records| ==> CategoryOf(records[j].test).Some?
  }

  /** The category of each record, in recording order. */
  function Categories(records: seq<TestRecord>): (cats: seq<string>)
    requires Categorised(records)
    ensures |cats| == |records|
  {
    if records == [] then []
    else Categories(records[..|records| - 1]) + [CategoryOf(records[|records| - 1].test).value]
  }

  /** The keys of a dict filled by "add if absent": first appearances, in order. */
  function DistinctInOrder(s: seq<string>): (d: seq<string>)
    ensures forall x :: x in d <==> x in s
    ensures NoDuplicates(d)
  {
    if s == [] then []
    else
      var rest := DistinctInOrder(s[..|s| - 1]);
      if s[|s| - 1] in rest then rest else rest + [s[|s| - 1]]
  }

  predicate NoDuplicates(s: seq<string>)
  {
    forall i, j :: 0 <= i < j < |s| ==> s[i] != s[j]
  }

  datatype Tally = Tally(passed: nat, failed: nat)

  /** One more passing or failing test in a tally. */
  function Bump(t: Tally, passed: bool): Tally
  {
    if passed then Tally(t.passed + 1, t.failed) else Tally(t.passed, t.failed + 1)
  }

  /** How many records of category `c` passed and failed, counted independently of the breakdown. */
  function Tallied(records: seq<TestRecord>, c: string): (t: Tally)
    requires Categorised(records)
    ensures t.passed + t.failed <= |records|
  {
    if records == [] then Tally(0, 0)
    else
      var last := records[|records| - 1];
      var before := Tallied(records[..|records| - 1], c);
      if CategoryOf(last.test).value == c then Bump(before, last.passed) else before
  }

  /** The categories of `categories.items()`, in insertion order, with their counts. */
  datatype Breakdown = Breakdown(order: seq<string>, counts: map<string, Tally>)

  /** The dict after one more record of category `c`: added if absent, then counted. */
  function AddRecord(b: Breakdown, c: string, passed: bool): Breakdown
  {
    Breakdown(if c in b.counts then b.order else b.order + [c], b.counts[c := Bump(TallyIn(b.counts, c), passed)])
  }

  /** The dict the breakdown loop builds; `None` once a record has no category. */
  function BreakdownOf(records: seq<TestRecord>): (r: Option<Breakdown>)
    ensures r.Some? ==> NoDuplicates(r.value.order)
    ensures r.Some? ==> forall c :: c in r.value.counts <==> c in r.value.order
  {
    if records == [] then Some(Breakdown([], map[]))
    else
      var last := records[|records| - 1];
      match BreakdownOf(records[..|records| - 1])
      case None => None
      case Some(b) =>
        match CategoryOf(last.test)
        case None => None
        case Some(c) => Some(AddRecord(b, c, last.passed))
  }

  /** The breakdown is defined exactly when every test name has a category. */
  lemma {:induction false} BreakdownDefined(records: seq<TestRecord>)
    ensures BreakdownOf(records).Some? <==> Categorised(records)
  {
    if records != [] {
      var init := records[..|records| - 1];
      BreakdownDefined(init);
      if Categorised(records) {
        assert Categorised(init) by {
          forall j | 0 <= j < |init| ensures CategoryOf(init[j].test).Some? {
            assert init[j] == records[j];
          }
        }
      }
      if Categorised(init) && CategoryOf(records[|records| - 1].test).Some? {
        assert Categorised(records) by {
          forall j | 0 <= j < |records| ensures CategoryOf(records[j].test).Some? {
            if j < |init| {
              assert init[j] == records[j];
            }
          }
        }
      }
    }
  }

  lemma CategorisedPrefix(records: seq<TestRecord>, n: nat)
    requires Categorised(records) && n <= |records|
    ensures Categorised(records[..n])
  {
    forall j | 0 <= j < n ensures CategoryOf(records[..n][j].test).Some? {
      assert records[..n][j] == records[j];
    }
  }

  /**
   * The breakdown lists each category once, by first appearance, and holds exactly the
   * listed categories.
   */
  lemma {:induction false} BreakdownOrder(records: seq<TestRecord>)
    requires Categorised(records)
    ensures BreakdownOf(records).Some?
    ensures var b := BreakdownOf(records).value;
            b.order == DistinctInOrder(Categories(records)) && (forall c :: c in b.counts <==> c in b.order)
  {
    BreakdownDefined(records);
    if records != [] {
      CategorisedPrefix(records, |records| - 1);
      BreakdownOrder(records[..|records| - 1]);
    }
  }

  /** Each category in the breakdown carries its own pass and fail counts (none for one that never occurs). */
  lemma {:induction false} BreakdownTallies(records: seq<TestRecord>)
    requires Categorised(records)
    ensures BreakdownOf(records).Some?
    ensures forall c :: TallyIn(BreakdownOf(records).value.counts, c) == Tallied(records, c)
  {
    BreakdownDefined(records);
    if records != [] {
      CategorisedPrefix(records, |records| - 1);
      BreakdownTallies(records[..|records| - 1]);
    }
  }

  /** The tally a dict holds for `c`, zero when `c` is absent. */
  function TallyIn(counts: map<string, Tally>, c: string): Tally
  {
    if c in counts then counts[c] else Tally(0, 0)
  }

  /** Sum of passed + failed over the listed categories. */
  function TotalOf(order: seq<string>, counts: map<string, Tally>): nat
  {
    if order == [] then 0
    else
      var t := TallyIn(counts, order[|order| - 1]);
      TotalOf(order[..|order| - 1], counts) + t.passed + t.failed
  }

  /** Changing the count of a category not listed leaves the total alone. */
  lemma {:induction false} TotalOfUnlisted(order: seq<string>, counts: map<string, Tally>, c: string, t: Tally)
    requires c !in order
    ensures TotalOf(order, counts[c := t]) == TotalOf(order, counts)
  {
    if order != [] {
      TotalOfUnlisted(order[..|order| - 1], counts, c, t);
    }
  }

  /** Raising the count of a category listed once raises the total by as much. */
  lemma {:induction false} TotalOfBump(order: seq<string>, counts: map<string, Tally>, c: string, t: Tally)
    requires NoDuplicates(order) && c in order
    requires t.passed + t.failed == TallyIn(counts, c).passed + TallyIn(counts, c).failed + 1
    ensures TotalOf(order, counts[c := t]) == TotalOf(order, counts) + 1
  {
    var init := order[..|order| - 1];
    var last := order[|order| - 1];
    if last == c {
      assert c !in init by {
        forall i | 0 <= i < |init| ensures init[i] != c {
          assert order[i] != order[|order| - 1];
        }
      }
      TotalOfUnlisted(init, counts, c, t);
    } else {
      assert c in init by {
        var i :| 0 <= i < |order| && order[i] == c;
        assert i < |order| - 1;
        assert init[i] == c;
      }
      TotalOfBump(init, counts, c, t);
    }
  }

  /** The per-category counts add up to the number of records. */
  lemma {:induction false} BreakdownTotal(records: seq<TestRecord>)
    requires Categorised(records)
    ensures BreakdownOf(records).Some?
    ensures TotalOf(BreakdownOf(records).value.order, BreakdownOf(records).value.counts) == |records|
  {
    BreakdownDefined(records);
    if records != [] {
      var init := records[..|records| - 1];
      CategorisedPrefix(records, |records| - 1);
      BreakdownTotal(init);
      BreakdownOrder(init);
      var b := BreakdownOf(init).value;
      var last := records[|records| - 1];
      var c := CategoryOf(last.test).value;
      var t := Bump(TallyIn(b.counts, c), last.passed);
      assert BreakdownOf(records).value == AddRecord(b, c, last.passed);
      if c in b.counts {
        TotalOfBump(b.order, b.counts, c, t);
      } else {
        TotalOfUnlisted(b.order, b.counts, c, t);
        var o := b.order + [c];
        assert o[..|o| - 1] == b.order;
        assert TotalOf(o, b.counts[c := t]) == TotalOf(b.order, b.counts[c := t]) + t.passed + t.failed;
      }
    }
  }

  /**
   * The category-breakdown loop of `generate_report`: it builds the dict
   * `BreakdownOf` describes, adding each category when first seen and then counting
   * the record; `None` where a name has no category and `split()[0]` raises.
   */
  method CategoryBreakdown(records: seq<TestRecord>) returns (b: Option<Breakdown>)
    ensures b == BreakdownOf(records)
  {
    var order: seq<string> := [];
    var counts: map<string, Tally> := map[];
    var i := 0;
    while i < |records|
      invariant 0 <= i <= |records|
      invariant BreakdownOf(records[..i]) == Some(Breakdown(order, counts))
    {
      assert records[..i + 1][..i] == records[..i];
      var category := CategoryOf(records[i].test);
      if category.None? {
        BreakdownDefined(records);
        return None;
      }
      var c := category.value;
      ghost var next := AddRecord(Breakdown(order, counts), c, records[i].passed);
      if c !in counts {
        order := order + [c];
        counts := counts[c := Tally(0, 0)];
      }
      counts := counts[c := Bump(counts[c], records[i].passed)];
      assert Breakdown(order, counts) == next;
      i := i + 1;
    }
    assert records[..i] == records;
    b := Some(Breakdown(order, counts));
  }

  // ---------------------------------------------------------------------------------
  // The report
  // ---------------------------------------------------------------------------------

  datatype Report = Report(
    total: nat, passed: nat, failed: nat, warnings: nat,
    successRate: real, succeeded: bool, tier: Tier,
    breakdown: Breakdown, failedTests: seq<TestRecord>)
}
