/**
  One run of the report refresh (worker.py): for every team in list order, fetch the
  roster, ask the model for a scout report and upsert it into the reports
  table under the key (team, report_date); a team whose roster fetch or
  generation raises is skipped.
 */
module Worker {
  import opened Wrappers
  import opened Text
  import Prompts

  /** The primary key of the reports table: (team, report_date). */
  type Key = (string, string)

  /** What the two external calls of one iteration did. */
  datatype Fetch =
    | RosterFailed                                  // the roster fetch raised
    | GenerationFailed(roster: seq<string>)         // the roster arrived, generation raised
    | Generated(roster: seq<string>, text: string)  // both succeeded; `text` is `response.text`

  /** One entry of `teams.get_teams()` with the outcome of its iteration. */
  datatype Attempt = Attempt(team: string, fetch: Fetch)

  /** `", ".join(roster['PLAYER'].head(10).tolist())` */
  function RosterContext(names: seq<string>): string
  {
    Join(names[..if |names| < 10 then |names| else 10], ", ")
  }

  /** Only the first ten names reach the prompt. */
  lemma RosterContextIgnoresTail(first: seq<string>, rest: seq<string>)
    requires |first| >= 10
    ensures RosterContext(first + rest) == RosterContext(first)
  {
    assert (first + rest)[..10] == first[..10];
  }

  /** Each of the first min(10, n) names appears verbatim in the roster context. */
  lemma RosterContextListsNames(names: seq<string>, k: nat)
    requires k < |names| && k < 10
    ensures Contains(RosterContext(names), names[k])
  {
    var shown := names[..if |names| < 10 then |names| else 10];
    JoinContainsElement(shown, ", ", k);
  }

  /**
    With comma-free names, the context has exactly one comma between
    consecutive names: min(10, n) - 1 commas, so at most ten names.
   */
  lemma RosterContextSeparators(names: seq<string>)
    requires forall i :: 0 <= i < |names| ==> ',' !in names[i]
    ensures CountChar(RosterContext(names), ',') == if names == [] then 0 else (if |names| < 10 then |names| else 10) - 1
  {
    var shown := names[..if |names| < 10 then |names| else 10];
    if names != [] {
      assert CountChar(", ", ',') == 1;
      JoinCountChar(shown, ", ", ',');
      CommaFreeCount(shown);
    }
  }

  lemma {:induction false} CommaFreeCount(xs: seq<string>)
    requires forall i :: 0 <= i < |xs| ==> ',' !in xs[i]
    ensures CountCharAll(xs, ',') == 0
  {
    if xs != [] {
      CountCharAbsent(xs[0], ',');
      CommaFreeCount(xs[1..]);
    }
  }

  /** Attempt `a` wrote a report for `team`. */
  predicate Wrote(a: Attempt, team: string)
  {
    a.team == team && a.fetch.Generated?
  }

  /**
    The table after processing `attempts` in order from `rows`: each
    attempt whose calls both succeeded upserts (team, today) -> text.
   */
  function Refreshed(rows: map<Key, string>, attempts: seq<Attempt>, today: string): (r: map<Key, string>)
    ensures rows.Keys <= r.Keys
    ensures forall k :: k in r && k !in rows ==> k.1 == today
  {
    if attempts == [] then rows
    else
      var last := attempts[|attempts| - 1];
      var before := Refreshed(rows, attempts[..|attempts| - 1], today);
      if last.fetch.Generated? then before[(last.team, today) := last.fetch.text] else before
  }

  /** The prompts sent to the model, in order: one for each attempt whose roster arrived. */
  function SentPrompts(attempts: seq<Attempt>, today: string): (r: seq<string>)
    ensures |r| <= |attempts|
  {
    if attempts == [] then []
    else
      var last := attempts[|attempts| - 1];
      SentPrompts(attempts[..|attempts| - 1], today)
      + if last.fetch.RosterFailed? then []
        else [Prompts.ScoutReportPrompt(last.team, today, RosterContext(last.fetch.roster))]
  }

  /**
    The report the run leaves for `team`: the text of the last attempt for
    that team whose calls succeeded, if there is one.
   */
  function LatestReport(attempts: seq<Attempt>, team: string): (r: Option<string>)
    ensures r.None? <==> forall i :: 0 <= i < |attempts| ==> !Wrote(attempts[i], team)
    ensures r.Some? ==> exists i :: (0 <= i < |attempts| && Wrote(attempts[i], team)
      && attempts[i].fetch.text == r.value
      && forall j :: i < j < |attempts| ==> !Wrote(attempts[j], team))
  {
    if attempts == [] then None
    else
      var last := attempts[|attempts| - 1];
      if Wrote(last, team) then Some(last.fetch.text)
      else LatestReport(attempts[..|attempts| - 1], team)
  }

  /**
    The table after a run, key by key: (team, today) holds the team's
    latest report when it has one; every other row is the row that was
    there before, and no other row appears.
   */
  lemma {:induction false} RefreshedLookup(rows: map<Key, string>, attempts: seq<Attempt>, today: string)
    ensures var r := Refreshed(rows, attempts, today);
      && (forall team :: LatestReport(attempts, team).Some? ==>
            (team, today) in r && r[(team, today)] == LatestReport(attempts, team).value)
      && (forall k :: k in r <==> k in rows || (k.1 == today && LatestReport(attempts, k.0).Some?))
      && (forall k :: k in rows && (k.1 != today || LatestReport(attempts, k.0).None?) ==> r[k] == rows[k])
  {
    if attempts != [] {
      var prefix := attempts[..|attempts| - 1];
      RefreshedLookup(rows, prefix, today);
    }
  }

  /** Every row a run adds or changes is keyed by that run's `today`. */
  lemma RefreshedWritesToday(rows: map<Key, string>, attempts: seq<Attempt>, today: string)
    ensures var r := Refreshed(rows, attempts, today);
      forall k :: k in r && (k !in rows || r[k] != rows[k]) ==> k.1 == today
  {
    RefreshedLookup(rows, attempts, today);
  }

  /**
    Two runs that leave the same latest report for every team leave the
    same table.
   */
  lemma RefreshedByLatest(rows: map<Key, string>, a: seq<Attempt>, b: seq<Attempt>, today: string)
    requires forall team :: LatestReport(a, team) == LatestReport(b, team)
    ensures Refreshed(rows, a, today) == Refreshed(rows, b, today)
  {
    RefreshedLookup(rows, a, today);
    RefreshedLookup(rows, b, today);
  }

  lemma {:induction false} LatestReportSkipsFailure(a: seq<Attempt>, failed: Attempt, b: seq<Attempt>, team: string)
    requires !failed.fetch.Generated?
    ensures LatestReport(a + [failed] + b, team) == LatestReport(a + b, team)
  {
    if b == [] {
      assert a + [failed] + b == a + [failed];
      assert (a + [failed])[..|a|] == a;
      assert a + b == a;
    } else {
      var b' := b[..|b| - 1];
      LatestReportSkipsFailure(a, failed, b', team);
      assert (a + [failed] + b)[..|a + [failed] + b| - 1] == a + [failed] + b';
      assert (a + b)[..|a + b| - 1] == a + b';
    }
  }

  /**
    A team whose roster fetch or generation raised leaves the table as if
    it had not been in the list: the loop carries on with the next team.
   */
  lemma RefreshedSkipsFailure(rows: map<Key, string>, a: seq<Attempt>, failed: Attempt, b: seq<Attempt>, today: string)
    requires !failed.fetch.Generated?
    ensures Refreshed(rows, a + [failed] + b, today) == Refreshed(rows, a + b, today)
  {
    forall team ensures LatestReport(a + [failed] + b, team) == LatestReport(a + b, team) {
      LatestReportSkipsFailure(a, failed, b, team);
    }
    RefreshedByLatest(rows, a + [failed] + b, a + b, today);
  }

  /**
    When a team is listed again and succeeds again, with no later success
    for it in the run, the later report is the one the table keeps.
   */
  lemma LaterWriteWins(rows: map<Key, string>, a: seq<Attempt>, first: Attempt, b: seq<Attempt>,
                       second: Attempt, c: seq<Attempt>, today: string)
    requires first.team == second.team && first.fetch.Generated? && second.fetch.Generated?
    requires forall i :: 0 <= i < |c| ==> !Wrote(c[i], second.team)
    ensures var r := Refreshed(rows, a + [first] + b + [second] + c, today);
      (second.team, today) in r && r[(second.team, today)] == second.fetch.text
  {
    var run := a + [first] + b + [second] + c;
    var s := |a| + 1 + |b|;
    assert run[s] == second;
    RefreshedLookup(rows, run, today);
  }

  /** Each attempt writes at most one row, so a run adds at most one row per listed entry. */
  lemma {:induction false} RefreshedGrowth(rows: map<Key, string>, attempts: seq<Attempt>, today: string)
    ensures |Refreshed(rows, attempts, today)| <= |rows| + |attempts|
  {
    if attempts != [] {
      RefreshedGrowth(rows, attempts[..|attempts| - 1], today);
    }
  }

  /** Every prompt the run sends names `today` and one of the listed teams. */
  lemma {:induction false} SentPromptsMention(attempts: seq<Attempt>, today: string)
    ensures |SentPrompts(attempts, today)| <= |attempts|
    ensures forall p :: p in SentPrompts(attempts, today) ==>
      Contains(p, today) && exists a :: a in attempts && Contains(p, a.team)
  {
    if attempts != [] {
      var prefix := attempts[..|attempts| - 1];
      var last := attempts[|attempts| - 1];
      SentPromptsMention(prefix, today);
      if !last.fetch.RosterFailed? {
        Prompts.ScoutReportMentions(last.team, today, RosterContext(last.fetch.roster));
      }
      forall a | a in prefix ensures a in attempts {
      }
    }
  }

  /**
    The reports table of the SQLite file: whether it has been created, and
    its rows keyed by (team, report_date).
   */
  class ReportStore {
    var tableExists: bool
    var rows: map<Key, string>

    /** The database file as `sqlite3.connect` finds it: `existing` is the table, if there is one. */
    constructor (existing: Option<map<Key, string>>)
      ensures tableExists == existing.Some?
      ensures rows == if existing.Some? then existing.value else map[]
    {
      tableExists := existing.Some?;
      rows := if existing.Some? then existing.value else map[];
    }

    /** `CREATE TABLE IF NOT EXISTS reports (...)`: the rows already there survive. */
    method CreateTableIfNotExists()
      modifies this
      ensures tableExists
      ensures rows == old(rows)
    {
      tableExists := true;
    }

    /**
      `INSERT OR REPLACE INTO reports VALUES (?, ?, ?)`: the row for the key
      is set, every other row is kept. Without the table the statement
      raises and nothing changes.
     */
    method InsertOrReplace(team: string, date: string, content: string) returns (ok: bool)
      modifies this
      ensures tableExists == old(tableExists)
      ensures ok == old(tableExists)
      ensures rows == if ok then old(rows)[(team, date) := content] else old(rows)
    {
      ok := tableExists;
      if ok {
        rows := rows[(team, date) := content];
      }
    }

    /**
      `update_all_teams()`: `today` is computed once, before the loop, and
      `attempts` holds the teams in list order with the outcome of each
      one's external calls. Returns the prompts sent to the model.
     */
    method UpdateAllTeams(attempts: seq<Attempt>, today: string) returns (prompts: seq<string>)
      modifies this
      ensures tableExists
      ensures rows == Refreshed(old(rows), attempts, today)
      ensures prompts == SentPrompts(attempts, today)
    {
      CreateTableIfNotExists();
      prompts := [];
      var i := 0;
      while i < |attempts|
        invariant 0 <= i <= |attempts|
        invariant tableExists
        invariant rows == Refreshed(old(rows), attempts[..i], today)
        invariant prompts == SentPrompts(attempts[..i], today)
      {
        var attempt := attempts[i];
        assert attempts[..i + 1][..i] == attempts[..i];
        match attempt.fetch {
          case RosterFailed =>
          case GenerationFailed(roster) =>
            prompts := prompts + [Prompts.ScoutReportPrompt(attempt.team, today, RosterContext(roster))];
          case Generated(roster, text) =>
            prompts := prompts + [Prompts.ScoutReportPrompt(attempt.team, today, RosterContext(roster))];
            var _ := InsertOrReplace(attempt.team, today, text);
        }
        i := i + 1;
      }
      assert attempts[..i] == attempts;
    }
  }
}
