/**
 * The log helpers of the `analyse` command: the dialogue check over a
 * package tree, and `ParseLogs`, which creates the per-agent log tables,
 * selects rows from them, and renders them as an execution path or a table.
 *
 * The log database, the log collection, the time parser and the two round
 * patterns are inputs: the database's `select` is a function of the agent and
 * the query, `strptime` a partial function from text to instants, and each
 * pattern a partial function from a message to its two captured groups.
 */
module AnalyseLogs {
  import opened Wrappers
  import AnalyseHandlers

  // ---------------------------------------------------------------------------
  // Sequences used as Python lists and insertion-ordered dicts

  predicate Distinct(s: seq<string>)
  {
    forall i, j | 0 <= i < j < |s| :: s[i] != s[j]
  }

  function Elements(s: seq<string>): set<string>
  {
    set x | x in s
  }

  /** The distinct elements of `s` in the order of their first occurrence: the keys of a dict built from `s`. */
  function Dedup(s: seq<string>): (r: seq<string>)
    ensures Distinct(r)
    ensures forall x :: x in r <==> x in s
    decreases |s|
  {
    if |s| == 0 then []
    else
      var d := Dedup(s[..|s| - 1]);
      assert forall x :: x in s <==> x in s[..|s| - 1] || x == s[|s| - 1] by {
        assert s == s[..|s| - 1] + [s[|s| - 1]];
      }
      if s[|s| - 1] in d then d else d + [s[|s| - 1]]
  }

  function Keys<V>(d: seq<(string, V)>): seq<string>
  {
    if |d| == 0 then [] else [d[0].0] + Keys(d[1..])
  }

  /** `d[k] = v` on an insertion-ordered dict: an existing key keeps its place. */
  function Put<V>(d: seq<(string, V)>, k: string, v: V): seq<(string, V)>
  {
    if |d| == 0 then [(k, v)]
    else if d[0].0 == k then [(k, v)] + d[1..]
    else [d[0]] + Put(d[1..], k, v)
  }

  lemma {:induction false} KeysPut<V>(d: seq<(string, V)>, k: string, v: V)
    ensures Keys(Put(d, k, v)) == if k in Keys(d) then Keys(d) else Keys(d) + [k]
    ensures forall i | 0 <= i < |Put(d, k, v)| :: Put(d, k, v)[i] in d || Put(d, k, v)[i] == (k, v)
    ensures |Put(d, k, v)| == |Keys(Put(d, k, v))|
  {
    if |d| > 0 && d[0].0 != k {
      KeysPut(d[1..], k, v);
      var p := Put(d, k, v);
      forall i | 0 <= i < |p| ensures p[i] in d || p[i] == (k, v) {
        if i > 0 {
          assert p[i] == Put(d[1..], k, v)[i - 1];
          if p[i] in d[1..] {
            assert p[i] in d;
          }
        }
      }
    } else if |d| > 0 {
      KeysLength(d[1..]);
    }
  }

  lemma {:induction false} KeysLength<V>(d: seq<(string, V)>)
    ensures |Keys(d)| == |d|
    ensures forall i | 0 <= i < |d| :: Keys(d)[i] == d[i].0
  {
    if |d| > 0 {
      KeysLength(d[1..]);
    }
  }

  // ---------------------------------------------------------------------------
  // The dialogue check over a package tree

  datatype ErrorKind = ValueErrorKind | FileNotFoundErrorKind | ImportErrorKind | OtherErrorKind

  /** An exception raised by loading the package tree or by checking a skill. */
  datatype Failure = Failure(kind: ErrorKind, message: string)

  datatype CliError =
      /** `click.ClickException(str(e))` */
    | ClickException(message: string)
      /** an exception the command does not catch */
    | Uncaught(failure: Failure)

  /** The `except` clause: value, file-not-found and import errors become CLI errors carrying their text. */
  function Converted(f: Failure): (e: CliError)
    ensures e.ClickException? <==> f.kind != OtherErrorKind
    ensures e.ClickException? ==> e.message == f.message
    ensures e.Uncaught? ==> e.failure == f
  {
    if f.kind == OtherErrorKind then Uncaught(f) else ClickException(f.message)
  }

  function SkillName(yamlFile: AnalyseHandlers.Path): string
  {
    AnalyseHandlers.Name(AnalyseHandlers.Parent(yamlFile))
  }

  /** What the loop prints for a skill configuration file. */
  function EchoLine(yamlFile: AnalyseHandlers.Path, ignore: seq<string>): string
  {
    if SkillName(yamlFile) in ignore then "Skipping " + SkillName(yamlFile) else "Checking " + SkillName(yamlFile)
  }

  /**
   * The loop over the skill files: what it prints and the first failure of a
   * check, after which it stops.
   */
  function DialoguesRun(files: seq<AnalyseHandlers.Path>, ignore: seq<string>,
                        check: AnalyseHandlers.Path -> Option<Failure>): (seq<string>, Option<Failure>)
    decreases |files|
  {
    if |files| == 0 then ([], None)
    else
      var (echo, failure) := DialoguesRun(files[..|files| - 1], ignore, check);
      var f := files[|files| - 1];
      if failure.Some? then (echo, failure)
      else if SkillName(f) in ignore then (echo + [EchoLine(f, ignore)], None)
      else (echo + [EchoLine(f, ignore)], check(f))
  }

  /** `run_dialogues_check`: load the tree, check every skill not ignored, convert the caught errors. */
  function DialoguesCheck(files: seq<AnalyseHandlers.Path>, ignore: seq<string>, loadError: Option<Failure>,
                          check: AnalyseHandlers.Path -> Option<Failure>): (seq<string>, Outcome<CliError>)
  {
    if loadError.Some? then ([], Fail(Converted(loadError.value)))
    else
      var (echo, failure) := DialoguesRun(files, ignore, check);
      (echo, if failure.None? then Pass else Fail(Converted(failure.value)))
  }

  /** Once a check has failed, later files change nothing. */
  lemma {:induction false} DialoguesRunStops(files: seq<AnalyseHandlers.Path>, ignore: seq<string>,
                                             check: AnalyseHandlers.Path -> Option<Failure>, i: nat, j: nat)
    requires i <= j <= |files|
    requires DialoguesRun(files[..i], ignore, check).1.Some?
    ensures DialoguesRun(files[..j], ignore, check) == DialoguesRun(files[..i], ignore, check)
    decreases j
  {
    if j > i {
      DialoguesRunStops(files, ignore, check, i, j - 1);
      assert files[..j][..j - 1] == files[..j - 1];
    }
  }

  /** Every skill among `files` that is not ignored passes its check. */
  ghost predicate AllChecksPass(files: seq<AnalyseHandlers.Path>, ignore: seq<string>,
                                check: AnalyseHandlers.Path -> Option<Failure>)
  {
    forall i | 0 <= i < |files| :: SkillName(files[i]) !in ignore ==> check(files[i]).None?
  }

  /** The loop over all the files: the loop over all but the last, then the last file. */
  lemma DialoguesRunSnoc(files: seq<AnalyseHandlers.Path>, ignore: seq<string>,
                         check: AnalyseHandlers.Path -> Option<Failure>)
    requires |files| > 0
    ensures var prev := DialoguesRun(files[..|files| - 1], ignore, check);
      var f := files[|files| - 1];
      DialoguesRun(files, ignore, check) ==
        if prev.1.Some? then prev
        else if SkillName(f) in ignore then (prev.0 + [EchoLine(f, ignore)], None)
        else (prev.0 + [EchoLine(f, ignore)], check(f))
  {
  }

  /** The loop fails exactly when some skill that is not ignored fails its check. */
  lemma {:induction false} DialoguesRunPasses(files: seq<AnalyseHandlers.Path>, ignore: seq<string>,
                                              check: AnalyseHandlers.Path -> Option<Failure>)
    ensures DialoguesRun(files, ignore, check).1.None? <==> AllChecksPass(files, ignore, check)
    decreases |files|
  {
    if |files| > 0 {
      var prefix := files[..|files| - 1];
      var f := files[|files| - 1];
      DialoguesRunPasses(prefix, ignore, check);
      DialoguesRunSnoc(files, ignore, check);
      if DialoguesRun(prefix, ignore, check).1.Some? {
        var i :| 0 <= i < |prefix| && SkillName(prefix[i]) !in ignore && check(prefix[i]).Some?;
        assert files[i] == prefix[i];
      } else {
        assert forall i | 0 <= i < |prefix| :: files[i] == prefix[i];
        assert AllChecksPass(files, ignore, check) <==> SkillName(f) !in ignore ==> check(f).None?;
      }
    }
  }

  /**
   * A loop that does not fail prints one line per file, in order, saying
   * whether it skipped or checked the skill.
   */
  lemma {:induction false} DialoguesRunEcho(files: seq<AnalyseHandlers.Path>, ignore: seq<string>,
                                            check: AnalyseHandlers.Path -> Option<Failure>)
    ensures var (echo, failure) := DialoguesRun(files, ignore, check);
      failure.None? ==> |echo| == |files| && forall i | 0 <= i < |files| :: echo[i] == EchoLine(files[i], ignore)
    decreases |files|
  {
    if |files| > 0 {
      var prefix := files[..|files| - 1];
      DialoguesRunEcho(prefix, ignore, check);
      DialoguesRunSnoc(files, ignore, check);
      assert forall i | 0 <= i < |prefix| :: files[i] == prefix[i];
    }
  }

  /**
   * A failing loop reports the first skill, not ignored, that fails its
   * check: the lines it printed end with the one saying it checked that skill,
   * and every skill before it, not ignored, passed.
   */
  lemma {:induction false} DialoguesRunFirstFailure(files: seq<AnalyseHandlers.Path>, ignore: seq<string>,
                                                    check: AnalyseHandlers.Path -> Option<Failure>)
    ensures var (echo, failure) := DialoguesRun(files, ignore, check);
      failure.Some? ==>
        exists k | 0 <= k < |files| ::
          && SkillName(files[k]) !in ignore && failure == check(files[k])
          && |echo| == k + 1 && echo[k] == "Checking " + SkillName(files[k])
          && AllChecksPass(files[..k], ignore, check)
    decreases |files|
  {
    if |files| > 0 {
      var prefix := files[..|files| - 1];
      var f := files[|files| - 1];
      DialoguesRunSnoc(files, ignore, check);
      var (echo, failure) := DialoguesRun(prefix, ignore, check);
      if failure.Some? {
        DialoguesRunFirstFailure(prefix, ignore, check);
        var k :| 0 <= k < |prefix|
          && SkillName(prefix[k]) !in ignore && failure == check(prefix[k])
          && |echo| == k + 1 && echo[k] == "Checking " + SkillName(prefix[k])
          && AllChecksPass(prefix[..k], ignore, check);
        assert files[k] == prefix[k];
        assert files[..k] == prefix[..k];
      } else if SkillName(f) !in ignore && check(f).Some? {
        DialoguesRunPasses(prefix, ignore, check);
        DialoguesRunEcho(prefix, ignore, check);
        var k := |files| - 1;
        assert files[..k] == prefix;
      }
    }
  }

  /**
   * The command passes exactly when the tree loads and every skill not
   * ignored passes its check; ignored skills are never checked, so their
   * results do not matter. A failure it reports is a CLI error carrying the
   * text of a value, file-not-found or import error, or another error
   * passed on unchanged.
   */
  lemma DialoguesCheckOutcome(files: seq<AnalyseHandlers.Path>, ignore: seq<string>, loadError: Option<Failure>,
                              check: AnalyseHandlers.Path -> Option<Failure>)
    ensures var (echo, r) := DialoguesCheck(files, ignore, loadError, check);
      && (r.Pass? <==> loadError.None? && AllChecksPass(files, ignore, check))
      && (r.Fail? && r.error.ClickException? ==>
            exists f: Failure :: f.kind != OtherErrorKind && r.error.message == f.message &&
              (loadError == Some(f) || exists i | 0 <= i < |files| :: check(files[i]) == Some(f)))
      && (r.Fail? && r.error.Uncaught? ==> r.error.failure.kind == OtherErrorKind)
  {
    DialoguesRunPasses(files, ignore, check);
    DialoguesRunFirstFailure(files, ignore, check);
    var (echo, r) := DialoguesCheck(files, ignore, loadError, check);
    if r.Fail? && loadError.None? {
      var (e, failure) := DialoguesRun(files, ignore, check);
      var k :| 0 <= k < |files| && SkillName(files[k]) !in ignore && failure == check(files[k]);
      assert check(files[k]) == Some(failure.value);
    }
  }

  /** `run_dialogues_check`: the lines it prints and whether it raises. */
  method RunDialoguesCheck(files: seq<AnalyseHandlers.Path>, ignore: seq<string>, loadError: Option<Failure>,
                           check: AnalyseHandlers.Path -> Option<Failure>)
    returns (echo: seq<string>, r: Outcome<CliError>)
    ensures (echo, r) == DialoguesCheck(files, ignore, loadError, check)
  {
    if loadError.Some? {
      return [], Fail(Converted(loadError.value));
    }
    echo := [];
    var i := 0;
    while i < |files|
      invariant 0 <= i <= |files|
      invariant DialoguesRun(files[..i], ignore, check) == (echo, None)
    {
      var f := files[i];
      assert files[..i + 1][..i] == files[..i];
      var name := SkillName(f);
      if name in ignore {
        echo := echo + ["Skipping " + name];
      } else {
        echo := echo + ["Checking " + name];
        var failure := check(f);
        if failure.Some? {
          DialoguesRunStops(files, ignore, check, i + 1, |files|);
          assert files[..|files|] == files;
          return echo, Fail(Converted(failure.value));
        }
      }
      i := i + 1;
    }
    assert files[..i] == files;
    r := Pass;
  }

  // ---------------------------------------------------------------------------
  // Log rows and their rendering

  /** The columns of a log row that the renderings read: timestamp, level and message. */
  datatype LogRow = LogRow(timestamp: string, logLevel: string, message: string)

  /**
   * The enter-round and exit-round patterns: each maps a message it matches
   * to its two groups (round and period; round and event).
   */
  datatype Patterns = Patterns(enterRound: string -> Option<(string, string)>, exitRound: string -> Option<(string, string)>)

  /** A line of the execution path. */
  datatype PathLine = AgentLine(agent: string) | PeriodLine(period: string) | ExitLine(roundName: string, event: string) | EndLine

  /** The text printed for a line. */
  function Render(l: PathLine): string
  {
    match l
    case AgentLine(a) => "Agent " + a
    case PeriodLine(p) => "|_ Period " + p
    case ExitLine(r, e) => "| |_ " + r + " | " + e
    case EndLine => "|_ End\n"
  }

  /**
   * The enter-round part of a row: a header when the period differs from the
   * last one seen, and the period seen next. The pattern yields the period
   * as text, so it never equals the initial integer -1: the initial period
   * is represented as `None`.
   */
  function EnterLines(row: LogRow, period: Option<string>, pats: Patterns): (seq<PathLine>, Option<string>)
  {
    match pats.enterRound(row.message)
    case None => ([], period)
    case Some((_, p)) => if Some(p) != period then ([PeriodLine(p)], Some(p)) else ([], period)
  }

  function ExitLines(row: LogRow, pats: Patterns): seq<PathLine>
  {
    match pats.exitRound(row.message)
    case None => []
    case Some((r, e)) => [ExitLine(r, e)]
  }

  /** The lines of an agent's rows, starting from the period last seen. */
  function RowsPath(rows: seq<LogRow>, period: Option<string>, pats: Patterns): seq<PathLine>
    decreases |rows|
  {
    if |rows| == 0 then []
    else
      var (header, next) := EnterLines(rows[0], period, pats);
      header + ExitLines(rows[0], pats) + RowsPath(rows[1..], next, pats)
  }

  function AgentPath(agent: string, rows: seq<LogRow>, pats: Patterns): seq<PathLine>
  {
    [AgentLine(agent)] + RowsPath(rows, None, pats) + [EndLine]
  }

  /** The execution path of every agent, in the order of the results. */
  function Paths(results: seq<(string, seq<LogRow>)>, pats: Patterns): seq<PathLine>
    decreases |results|
  {
    if |results| == 0 then []
    else Paths(results[..|results| - 1], pats) + AgentPath(results[|results| - 1].0, results[|results| - 1].1, pats)
  }

  /** The two groups of every exit-round match, in log order. */
  function ExitMatches(rows: seq<LogRow>, pats: Patterns): seq<(string, string)>
    decreases |rows|
  {
    if |rows| == 0 then []
    else
      var rest := ExitMatches(rows[1..], pats);
      match pats.exitRound(rows[0].message)
      case None => rest
      case Some(m) => [m] + rest
  }

  /** The periods of every enter-round match, in log order. */
  function EnteredPeriods(rows: seq<LogRow>, pats: Patterns): seq<string>
    decreases |rows|
  {
    if |rows| == 0 then []
    else
      var rest := EnteredPeriods(rows[1..], pats);
      match pats.enterRound(rows[0].message)
      case None => rest
      case Some((_, p)) => [p] + rest
  }

  /** The periods of a list at which the period changes, starting from `period`. */
  function Changes(period: Option<string>, ps: seq<string>): seq<string>
    decreases |ps|
  {
    if |ps| == 0 then []
    else (if Some(ps[0]) != period then [ps[0]] else []) + Changes(Some(ps[0]), ps[1..])
  }

  function Exits(lines: seq<PathLine>): seq<(string, string)>
    decreases |lines|
  {
    if |lines| == 0 then []
    else (if lines[0].ExitLine? then [(lines[0].roundName, lines[0].event)] else []) + Exits(lines[1..])
  }

  function Headers(lines: seq<PathLine>): seq<string>
    decreases |lines|
  {
    if |lines| == 0 then []
    else (if lines[0].PeriodLine? then [lines[0].period] else []) + Headers(lines[1..])
  }

  lemma {:induction false} ExitsConcat(a: seq<PathLine>, b: seq<PathLine>)
    ensures Exits(a + b) == Exits(a) + Exits(b)
    decreases |a|
  {
    if |a| > 0 {
      assert (a + b)[1..] == a[1..] + b;
      ExitsConcat(a[1..], b);
    } else {
      assert a + b == b;
    }
  }

  lemma {:induction false} HeadersConcat(a: seq<PathLine>, b: seq<PathLine>)
    ensures Headers(a + b) == Headers(a) + Headers(b)
    decreases |a|
  {
    if |a| > 0 {
      assert (a + b)[1..] == a[1..] + b;
      HeadersConcat(a[1..], b);
    } else {
      assert a + b == b;
    }
  }

  /** Each exit-round match gives one exit line, in log order, and nothing else gives one. */
  lemma {:induction false} ExitLinesInOrder(rows: seq<LogRow>, period: Option<string>, pats: Patterns)
    ensures Exits(RowsPath(rows, period, pats)) == ExitMatches(rows, pats)
    decreases |rows|
  {
    if |rows| > 0 {
      var (header, next) := EnterLines(rows[0], period, pats);
      ExitLinesInOrder(rows[1..], next, pats);
      ExitsConcat(header + ExitLines(rows[0], pats), RowsPath(rows[1..], next, pats));
      ExitsConcat(header, ExitLines(rows[0], pats));
      assert Exits(header) == [];
    }
  }

  /** The period headers are exactly the changes of the entered periods. */
  lemma {:induction false} HeadersAtChanges(rows: seq<LogRow>, period: Option<string>, pats: Patterns)
    ensures Headers(RowsPath(rows, period, pats)) == Changes(period, EnteredPeriods(rows, pats))
    decreases |rows|
  {
    if |rows| > 0 {
      var (header, next) := EnterLines(rows[0], period, pats);
      HeadersAtChanges(rows[1..], next, pats);
      HeadersConcat(header + ExitLines(rows[0], pats), RowsPath(rows[1..], next, pats));
      HeadersConcat(header, ExitLines(rows[0], pats));
      assert Headers(ExitLines(rows[0], pats)) == [];
      match pats.enterRound(rows[0].message)
      case None =>
      case Some((_, p)) =>
        var ps := EnteredPeriods(rows, pats);
        assert ps == [p] + EnteredPeriods(rows[1..], pats);
        assert ps[1..] == EnteredPeriods(rows[1..], pats);
    }
  }

  /**
   * The changes of a list of periods: no two neighbours are equal, the first
   * differs from the period before, each one is a period of the list, and
   * every period of the list other than the one before is among them.
   */
  lemma {:induction false} ChangesShape(period: Option<string>, ps: seq<string>)
    ensures var c := Changes(period, ps);
      && |c| <= |ps|
      && (forall i | 0 <= i < |c| - 1 :: c[i] != c[i + 1])
      && (|c| > 0 ==> Some(c[0]) != period)
      && (forall q | q in c :: q in ps)
      && (forall q | q in ps && Some(q) != period :: q in c)
    decreases |ps|
  {
    if |ps| > 0 {
      var rest := Changes(Some(ps[0]), ps[1..]);
      ChangesShape(Some(ps[0]), ps[1..]);
      var c := Changes(period, ps);
      forall q | q in ps && Some(q) != period ensures q in c {
        if q != ps[0] {
          assert q in ps[1..];
        }
      }
    }
  }

  /** Rounds entered in one period, after another, give exactly one header. */
  lemma {:induction false} OnePeriodOneHeader(period: Option<string>, ps: seq<string>, q: string)
    requires |ps| > 0 && forall i | 0 <= i < |ps| :: ps[i] == q
    requires Some(q) != period
    ensures Changes(period, ps) == [q]
  {
    SameRunNoHeader(q, ps[1..]);
  }

  lemma {:induction false} SameRunNoHeader(q: string, ps: seq<string>)
    requires forall i | 0 <= i < |ps| :: ps[i] == q
    ensures Changes(Some(q), ps) == []
    decreases |ps|
  {
    if |ps| > 0 {
      SameRunNoHeader(q, ps[1..]);
    }
  }

  /** The lines of an agent's rows are headers and exit lines only. */
  lemma {:induction false} RowsPathLines(rows: seq<LogRow>, period: Option<string>, pats: Patterns)
    ensures forall l | l in RowsPath(rows, period, pats) :: l.PeriodLine? || l.ExitLine?
    decreases |rows|
  {
    if |rows| > 0 {
      var (header, next) := EnterLines(rows[0], period, pats);
      RowsPathLines(rows[1..], next, pats);
    }
  }

  /** An agent's path opens with its name, closes with the end line, and holds neither in between. */
  lemma AgentPathFrame(agent: string, rows: seq<LogRow>, pats: Patterns)
    ensures var p := AgentPath(agent, rows, pats);
      && p[0] == AgentLine(agent) && p[|p| - 1] == EndLine
      && forall i | 0 < i < |p| - 1 :: p[i].PeriodLine? || p[i].ExitLine?
  {
    RowsPathLines(rows, None, pats);
    var p := AgentPath(agent, rows, pats);
    forall i | 0 < i < |p| - 1 ensures p[i].PeriodLine? || p[i].ExitLine? {
      assert p[i] == RowsPath(rows, None, pats)[i - 1];
    }
  }

  /** The agents named by the path, in order: one per result. */
  function Agents(lines: seq<PathLine>): seq<string>
    decreases |lines|
  {
    if |lines| == 0 then []
    else Agents(lines[..|lines| - 1]) + (if lines[|lines| - 1].AgentLine? then [lines[|lines| - 1].agent] else [])
  }

  lemma {:induction false} AgentsConcat(a: seq<PathLine>, b: seq<PathLine>)
    ensures Agents(a + b) == Agents(a) + Agents(b)
    decreases |b|
  {
    if |b| == 0 {
      assert a + b == a;
    } else {
      assert (a + b)[..|a + b| - 1] == a + b[..|b| - 1];
      AgentsConcat(a, b[..|b| - 1]);
    }
  }

  lemma {:induction false} AgentsOfRows(rows: seq<LogRow>, pats: Patterns)
    ensures Agents(RowsPath(rows, None, pats)) == []
  {
    var lines := RowsPath(rows, None, pats);
    RowsPathLines(rows, None, pats);
    NoAgentLines(lines);
  }

  lemma {:induction false} NoAgentLines(lines: seq<PathLine>)
    requires forall l | l in lines :: !l.AgentLine?
    ensures Agents(lines) == []
    decreases |lines|
  {
    if |lines| > 0 {
      assert forall l | l in lines[..|lines| - 1] :: l in lines;
      NoAgentLines(lines[..|lines| - 1]);
    }
  }

  /** The execution path names every agent of the results once, in order. */
  lemma {:induction false} PathsNameEveryAgent(results: seq<(string, seq<LogRow>)>, pats: Patterns)
    ensures Agents(Paths(results, pats)) == Keys(results)
    decreases |results|
  {
    if |results| > 0 {
      var n := |results| - 1;
      var (agent, rows) := results[n];
      PathsNameEveryAgent(results[..n], pats);
      AgentsConcat(Paths(results[..n], pats), AgentPath(agent, rows, pats));
      AgentsConcat([AgentLine(agent)], RowsPath(rows, None, pats));
      AgentsConcat([AgentLine(agent)] + RowsPath(rows, None, pats), [EndLine]);
      AgentsOfRows(rows, pats);
      assert Agents([AgentLine(agent)]) == [agent] by {
        assert [AgentLine(agent)][..0] == [];
      }
      assert Agents([EndLine]) == [] by {
        assert [EndLine][..0] == [];
      }
      KeysSnoc(results[..n], results[n]);
      assert results[..n] + [results[n]] == results;
    }
  }

  lemma {:induction false} KeysSnoc<V>(d: seq<(string, V)>, x: (string, V))
    ensures Keys(d + [x]) == Keys(d) + [x.0]
    decreases |d|
  {
    if |d| > 0 {
      assert (d + [x])[1..] == d[1..] + [x];
      KeysSnoc(d[1..], x);
    }
  }

  // ---------------------------------------------------------------------------
  // The table rendering

  function RowText(row: LogRow): string
  {
    "[" + row.timestamp + "][" + row.logLevel + "] " + row.message
  }

  function TableRows(rows: seq<LogRow>): seq<string>
    decreases |rows|
  {
    if |rows| == 0 then [] else TableRows(rows[..|rows| - 1]) + [RowText(rows[|rows| - 1])]
  }

  function TableBlock(agent: string, rows: seq<LogRow>): seq<string>
  {
    ["--- " + agent + " ---"] + TableRows(rows) + ["--- End ---"]
  }

  function Tables(results: seq<(string, seq<LogRow>)>): seq<string>
    decreases |results|
  {
    if |results| == 0 then []
    else Tables(results[..|results| - 1]) + TableBlock(results[|results| - 1].0, results[|results| - 1].1)
  }

  /** An agent's table is its header, one line per row in order, and the footer. */
  lemma {:induction false} TableBlockLines(agent: string, rows: seq<LogRow>)
    ensures var t := TableBlock(agent, rows);
      && |t| == |rows| + 2
      && t[0] == "--- " + agent + " ---" && t[|t| - 1] == "--- End ---"
      && forall i | 0 <= i < |rows| :: t[i + 1] == RowText(rows[i])
  {
    TableRowsIndex(rows);
  }

  lemma {:induction false} TableRowsIndex(rows: seq<LogRow>)
    ensures |TableRows(rows)| == |rows|
    ensures forall i | 0 <= i < |rows| :: TableRows(rows)[i] == RowText(rows[i])
    decreases |rows|
  {
    if |rows| > 0 {
      var n := |rows| - 1;
      TableRowsIndex(rows[..n]);
      forall i | 0 <= i < n ensures TableRows(rows)[i] == RowText(rows[i]) {
        assert rows[..n][i] == rows[i];
      }
    }
  }

  // ---------------------------------------------------------------------------
  // Table creation and selection

  /** The `create_agent_db` calls of `create_tables`: agent and reset flag. */
  function CreateCalls(agents: seq<string>, existing: set<string>, reset: bool): seq<(string, bool)>
    decreases |agents|
  {
    if |agents| == 0 then []
    else
      var a := agents[|agents| - 1];
      CreateCalls(agents[..|agents| - 1], existing, reset) + (if a in existing && !reset then [] else [(a, reset)])
  }

  /** An agent's database is created exactly when it does not exist or a reset is asked for, and with that flag. */
  lemma {:induction false} CreateCallsIff(agents: seq<string>, existing: set<string>, reset: bool)
    ensures forall a, r :: (a, r) in CreateCalls(agents, existing, reset) <==>
      a in agents && r == reset && (a !in existing || reset)
    decreases |agents|
  {
    if |agents| > 0 {
      var n := |agents| - 1;
      CreateCallsIff(agents[..n], existing, reset);
      assert agents == agents[..n] + [agents[n]];
      forall a ensures a in agents <==> a in agents[..n] || a == agents[n] {
      }
    }
  }

  /** Once every database exists, creating the tables without a reset creates none. */
  lemma {:induction false} CreateTablesIdempotent(agents: seq<string>, existing: set<string>)
    requires Elements(agents) <= existing
    ensures CreateCalls(agents, existing, false) == []
    decreases |agents|
  {
    if |agents| > 0 {
      var n := |agents| - 1;
      assert agents[n] in Elements(agents);
      assert forall x | x in agents[..n] :: x in agents;
      CreateTablesIdempotent(agents[..n], existing);
    }
  }

  /** An instant, as `strptime` yields it. */
  type Instant = int

  datatype Query = Query(
    startTime: Option<Instant>,
    endTime: Option<Instant>,
    logLevel: Option<string>,
    period: Option<int>,
    roundName: Option<string>,
    behaviourName: Option<string>)

  datatype SelectError =
      /** ValueError of `strptime` */
    | BadTime(text: string)
      /** KeyError: no database for the agent */
    | UnknownAgent(agent: string)

  /** A bound is parsed only when it is given. */
  function ParseTime(t: Option<string>, parse: string -> Option<Instant>): (r: Result<Option<Instant>, SelectError>)
    ensures r.Ok? ==> (r.value.None? <==> t.None?)
    ensures r.Ok? && t.Some? ==> r.value == parse(t.value)
    ensures r.Err? <==> t.Some? && parse(t.value).None?
    ensures r.Err? ==> r.error == BadTime(t.value)
  {
    match t
    case None => Ok(None)
    case Some(s) => if parse(s).None? then Err(BadTime(s)) else Ok(parse(s))
  }

  /** The rows of each requested agent, gathered in a dict in request order. */
  function Gather(agents: seq<string>, known: set<string>, q: Query, dbSelect: (string, Query) -> seq<LogRow>)
    : Result<seq<(string, seq<LogRow>)>, SelectError>
    decreases |agents|
  {
    if |agents| == 0 then Ok([])
    else
      var a := agents[|agents| - 1];
      match Gather(agents[..|agents| - 1], known, q, dbSelect)
      case Err(e) => Err(e)
      case Ok(d) => if a !in known then Err(UnknownAgent(a)) else Ok(Put(d, a, dbSelect(a, q)))
  }

  /** `select`: parse the bounds (start first), then query every requested agent's database. */
  function SelectResults(agents: seq<string>, known: set<string>, startTime: Option<string>, endTime: Option<string>,
                         logLevel: Option<string>, period: Option<int>, roundName: Option<string>,
                         behaviourName: Option<string>, parse: string -> Option<Instant>,
                         dbSelect: (string, Query) -> seq<LogRow>): Result<seq<(string, seq<LogRow>)>, SelectError>
  {
    match ParseTime(startTime, parse)
    case Err(e) => Err(e)
    case Ok(start) =>
      match ParseTime(endTime, parse)
      case Err(e) => Err(e)
      case Ok(end) => Gather(agents, known, Query(start, end, logLevel, period, roundName, behaviourName), dbSelect)
  }

  /** Gathering succeeds exactly when every requested agent has a database. */
  lemma {:induction false} GatherSucceeds(agents: seq<string>, known: set<string>, q: Query,
                                          dbSelect: (string, Query) -> seq<LogRow>)
    ensures Gather(agents, known, q, dbSelect).Ok? <==> forall i | 0 <= i < |agents| :: agents[i] in known
    decreases |agents|
  {
    if |agents| > 0 {
      var n := |agents| - 1;
      GatherSucceeds(agents[..n], known, q, dbSelect);
      assert forall i | 0 <= i < n :: agents[..n][i] == agents[i];
    }
  }

  /**
   * A successful gathering has one entry per distinct requested agent, in the
   * order first requested, holding that agent's selected rows.
   */
  lemma {:induction false} GatherContents(agents: seq<string>, known: set<string>, q: Query,
                                          dbSelect: (string, Query) -> seq<LogRow>)
    ensures var g := Gather(agents, known, q, dbSelect);
      g.Ok? ==>
        && Keys(g.value) == Dedup(agents)
        && |g.value| == |Dedup(agents)|
        && forall i | 0 <= i < |g.value| :: g.value[i].1 == dbSelect(g.value[i].0, q)
    decreases |agents|
  {
    if |agents| > 0 {
      var n := |agents| - 1;
      var a := agents[n];
      GatherContents(agents[..n], known, q, dbSelect);
      var g := Gather(agents[..n], known, q, dbSelect);
      if g.Ok? && a in known {
        var d := g.value;
        KeysPut(d, a, dbSelect(a, q));
        var p := Put(d, a, dbSelect(a, q));
        forall i | 0 <= i < |p| ensures p[i].1 == dbSelect(p[i].0, q) {
          if p[i] != (a, dbSelect(a, q)) {
            var j :| 0 <= j < |d| && d[j] == p[i];
          }
        }
      }
    }
  }

  /** A failed gathering names a requested agent that has no database. */
  lemma {:induction false} GatherUnknown(agents: seq<string>, known: set<string>, q: Query,
                                         dbSelect: (string, Query) -> seq<LogRow>)
    ensures var g := Gather(agents, known, q, dbSelect);
      g.Err? ==> exists i | 0 <= i < |agents| :: g.error == UnknownAgent(agents[i]) && agents[i] !in known
    decreases |agents|
  {
    if |agents| > 0 {
      var n := |agents| - 1;
      GatherUnknown(agents[..n], known, q, dbSelect);
      if Gather(agents[..n], known, q, dbSelect).Err? {
        var i :| 0 <= i < n && Gather(agents[..n], known, q, dbSelect).error == UnknownAgent(agents[..n][i]) && agents[..n][i] !in known;
        assert agents[..n][i] == agents[i];
      }
    }
  }

  // ---------------------------------------------------------------------------
  // The log parser object

  class ParseLogs {
    /** the agents that have a log database, in the collection's order */
    const agents: seq<string>
    /** the agents whose database exists */
    var existing: set<string>
    /** the `create_agent_db` calls made: agent and reset flag */
    var created: seq<(string, bool)>
    /** the rows selected for each agent */
    var results: seq<(string, seq<LogRow>)>

    predicate Valid()
      reads this
    {
      Distinct(agents) && Distinct(Keys(results))
    }

    /** `from_dir`: one database per agent of the collection. */
    constructor FromDir(collectionAgents: seq<string>, existingDbs: set<string>)
      ensures Valid()
      ensures agents == Dedup(collectionAgents) && existing == existingDbs
      ensures created == [] && results == []
    {
      agents := Dedup(collectionAgents);
      existing := existingDbs;
      created := [];
      results := [];
    }

    /** `create_tables`: create the database of every agent that has none, or of every agent on a reset. */
    method CreateTables(reset: bool)
      requires Valid()
      modifies this
      ensures Valid()
      ensures created == old(created) + CreateCalls(agents, old(existing), reset)
      ensures existing == old(existing) + Elements(agents)
      ensures results == old(results)
    {
      var i := 0;
      while i < |agents|
        invariant 0 <= i <= |agents|
        invariant created == old(created) + CreateCalls(agents[..i], old(existing), reset)
        invariant existing == old(existing) + Elements(agents[..i])
        invariant results == old(results)
      {
        var agent := agents[i];
        assert agents[..i + 1] == agents[..i] + [agent];
        assert agents[..i + 1][..i] == agents[..i];
        assert agent in existing <==> agent in old(existing) by {
          assert agent !in Elements(agents[..i]);
        }
        if agent in existing && !reset {
          i := i + 1;
          continue;
        }
        created := created + [(agent, reset)];
        existing := existing + {agent};
        i := i + 1;
      }
      assert agents[..i] == agents;
    }

    /** `select`: on success the results are replaced; on an error they are left as they were. */
    method Select(requested: seq<string>, startTime: Option<string>, endTime: Option<string>,
                  logLevel: Option<string>, period: Option<int>, roundName: Option<string>,
                  behaviourName: Option<string>, parse: string -> Option<Instant>,
                  dbSelect: (string, Query) -> seq<LogRow>)
      returns (r: Outcome<SelectError>)
      requires Valid()
      modifies this
      ensures Valid()
      ensures var spec := SelectResults(requested, Elements(agents), startTime, endTime, logLevel, period,
                                        roundName, behaviourName, parse, dbSelect);
        && (r.Pass? <==> spec.Ok?)
        && (spec.Err? ==> r == Fail(spec.error) && results == old(results))
        && (spec.Ok? ==> results == spec.value)
      ensures existing == old(existing) && created == old(created)
    {
      var start := ParseTime(startTime, parse);
      if start.Err? {
        return Fail(start.error);
      }
      var end := ParseTime(endTime, parse);
      if end.Err? {
        return Fail(end.error);
      }
      var q := Query(start.value, end.value, logLevel, period, roundName, behaviourName);
      var gathered: seq<(string, seq<LogRow>)> := [];
      var i := 0;
      while i < |requested|
        invariant 0 <= i <= |requested|
        invariant Gather(requested[..i], Elements(agents), q, dbSelect) == Ok(gathered)
      {
        var agent := requested[i];
        assert requested[..i + 1][..i] == requested[..i];
        if agent !in agents {
          assert Gather(requested[..i + 1], Elements(agents), q, dbSelect) == Err(UnknownAgent(agent));
          assert Gather(requested, Elements(agents), q, dbSelect) == Err(UnknownAgent(agent)) by {
            GatherFailureStays(requested, Elements(agents), q, dbSelect, i + 1, |requested|);
            assert requested[..|requested|] == requested;
          }
          return Fail(UnknownAgent(agent));
        }
        gathered := Put(gathered, agent, dbSelect(agent, q));
        i := i + 1;
      }
      assert requested[..i] == requested;
      GatherContents(requested, Elements(agents), q, dbSelect);
      results := gathered;
      r := Pass;
    }

    /** `execution_path`: the path lines of every agent of the results. */
    method ExecutionPath(pats: Patterns) returns (out: seq<PathLine>)
      ensures out == Paths(results, pats)
    {
      out := [];
      var k := 0;
      while k < |results|
        invariant 0 <= k <= |results|
        invariant out == Paths(results[..k], pats)
      {
        var (agent, rows) := results[k];
        var lines := AgentPathOf(agent, rows, pats);
        out := out + lines;
        assert results[..k + 1][..k] == results[..k];
        k := k + 1;
      }
      assert results[..k] == results;
    }

    /** `table`: every agent's rows as a bordered block of lines. */
    method Table() returns (out: seq<string>)
      ensures out == Tables(results)
    {
      out := [];
      var k := 0;
      while k < |results|
        invariant 0 <= k <= |results|
        invariant out == Tables(results[..k])
      {
        var (agent, rows) := results[k];
        var before := out;
        out := out + ["--- " + agent + " ---"];
        var i := 0;
        while i < |rows|
          invariant 0 <= i <= |rows|
          invariant out == before + ["--- " + agent + " ---"] + TableRows(rows[..i])
        {
          assert rows[..i + 1][..i] == rows[..i];
          out := out + [RowText(rows[i])];
          i := i + 1;
        }
        assert rows[..i] == rows;
        out := out + ["--- End ---"];
        assert results[..k + 1][..k] == results[..k];
        k := k + 1;
      }
      assert results[..k] == results;
    }
  }

  /** The body of the loop of `execution_path` for one agent. */
  method AgentPathOf(agent: string, rows: seq<LogRow>, pats: Patterns) returns (out: seq<PathLine>)
    ensures out == AgentPath(agent, rows, pats)
  {
    var period: Option<string> := None;
    var inner: seq<PathLine> := [];
    var i := 0;
    while i < |rows|
      invariant 0 <= i <= |rows|
      invariant inner + RowsPath(rows[i..], period, pats) == RowsPath(rows, None, pats)
    {
      var row := rows[i];
      RowsPathStep(rows, i, period, pats);
      var header: seq<PathLine> := [];
      var next := period;
      var enter := pats.enterRound(row.message);
      if enter.Some? && Some(enter.value.1) != period {
        next := Some(enter.value.1);
        header := [PeriodLine(enter.value.1)];
      }
      var exit: seq<PathLine> := [];
      var exited := pats.exitRound(row.message);
      if exited.Some? {
        exit := [ExitLine(exited.value.0, exited.value.1)];
      }
      LinesAppend(inner, header, exit, RowsPath(rows[i + 1..], next, pats));
      inner := inner + header + exit;
      period := next;
      i := i + 1;
    }
    assert rows[i..] == [];
    out := [AgentLine(agent)] + inner + [EndLine];
  }

  /** Printing one row's lines after the earlier ones, regrouped. */
  lemma LinesAppend(a: seq<PathLine>, b: seq<PathLine>, c: seq<PathLine>, d: seq<PathLine>)
    ensures a + b + c + d == a + (b + c + d)
  {
  }

  /** The lines of the rows from the `i`-th on: that row's lines, then those of the rest. */
  lemma RowsPathStep(rows: seq<LogRow>, i: nat, period: Option<string>, pats: Patterns)
    requires i < |rows|
    ensures var (header, next) := EnterLines(rows[i], period, pats);
      RowsPath(rows[i..], period, pats) == header + ExitLines(rows[i], pats) + RowsPath(rows[i + 1..], next, pats)
  {
    assert rows[i..][0] == rows[i] && rows[i..][1..] == rows[i + 1..];
  }

  /** Once an agent is unknown, later agents change nothing. */
  lemma {:induction false} GatherFailureStays(agents: seq<string>, known: set<string>, q: Query,
                                              dbSelect: (string, Query) -> seq<LogRow>, i: nat, j: nat)
    requires i <= j <= |agents|
    requires Gather(agents[..i], known, q, dbSelect).Err?
    ensures Gather(agents[..j], known, q, dbSelect) == Gather(agents[..i], known, q, dbSelect)
    decreases j
  {
    if j > i {
      GatherFailureStays(agents, known, q, dbSelect, i, j - 1);
      assert agents[..j][..j - 1] == agents[..j - 1];
    }
  }
}
