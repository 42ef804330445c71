/**
 * The headcount per team computed after the records are exported: group the
 * records by team, keep each team's distinct collaborators, and report their
 * number and their first names.
 */
module Summary {
  import opened Wrappers
  import opened Text
  import opened Seqs
  import opened Extraction

  /** One team's line: its distinct collaborators, how many they are, and their first names. */
  datatype TeamLine = TeamLine(collaborators: seq<string>, count: nat, firstNames: seq<string>)

  /**
   * No summary when nothing was collected; a collaborator without a first
   * name (where `split()[0]` raises); otherwise one line per team.
   */
  datatype Report = NoRecords | MalformedName | Report(teams: map<string, TeamLine>)

  /** The groups of `groupby('Equipe')`. */
  function Teams(records: seq<Row>): set<string> {
    set r | r in records :: r.team
  }

  /** The collaborators of one team as a set: what `set(x)` holds for that group. */
  function CollaboratorSet(records: seq<Row>, team: string): set<string> {
    set r | r in records && r.team == team :: r.collaborator
  }

  /** The collaborator column of one team's group, in record order. */
  function Collaborators(records: seq<Row>, team: string): (cs: seq<string>)
    ensures forall c :: c in cs <==> c in CollaboratorSet(records, team)
  {
    if records == [] then []
    else
      var r := records[|records| - 1];
      var init := records[..|records| - 1];
      assert records == init + [r];
      assert CollaboratorSet(records, team) == CollaboratorSet(init, team) + (if r.team == team then {r.collaborator} else {});
      Collaborators(init, team) + (if r.team == team then [r.collaborator] else [])
  }

  /** Every collaborator has a first name: no collaborator is all whitespace, so `split()[0]` exists. */
  predicate Named(records: seq<Row>) {
    forall r | r in records :: !AllSpace(r.collaborator)
  }

  /** A collaborator of a team is the collaborator of one of the records. */
  lemma CollaboratorsNamed(records: seq<Row>, team: string)
    requires Named(records)
    ensures forall c :: c in CollaboratorSet(records, team) ==> !AllSpace(c)
  {
    forall c | c in CollaboratorSet(records, team) ensures !AllSpace(c) {
      var r :| r in records && r.team == team && r.collaborator == c;
    }
  }

  /** The first token of each of `cs`. */
  function FirstNames(cs: seq<string>): (names: seq<string>)
    requires forall c :: c in cs ==> !AllSpace(c)
    ensures |names| == |cs|
  {
    seq(|cs|, i requires 0 <= i < |cs| => FirstToken(cs[i]).value)
  }

  /** `primeiros_nomes` and `quantidade` for one team. */
  function Line(records: seq<Row>, team: string): TeamLine
    requires Named(records)
  {
    CollaboratorsNamed(records, team);
    var cs := Distinct(Collaborators(records, team));
    var names := FirstNames(cs);
    TeamLine(cs, |names|, names)
  }

  /** The `if dados_coletados:` block of `processar_planilhas`: the summary, computed only when something was collected. */
  function Summarize(records: seq<Row>): Report {
    if records == [] then NoRecords
    else if !Named(records) then MalformedName
    else Report(map t | t in Teams(records) :: Line(records, t))
  }

  /** There is a report exactly when records exist and all collaborators have a first name; it has one line per team. */
  lemma SummaryShape(records: seq<Row>)
    ensures Summarize(records) == NoRecords <==> records == []
    ensures Summarize(records).Report? <==> records != [] && Named(records)
    ensures Summarize(records).Report? ==> Summarize(records).teams.Keys == Teams(records)
  {
  }

  /** Each team's entry is its line. */
  lemma SummaryLine(records: seq<Row>, team: string)
    requires Summarize(records).Report? && team in Summarize(records).teams
    ensures Named(records) && Summarize(records).teams[team] == Line(records, team)
  {
  }

  /** A line counts the distinct collaborator strings of its team, with one first name for each. */
  lemma LineCount(records: seq<Row>, team: string)
    requires Named(records)
    ensures Line(records, team).count == |CollaboratorSet(records, team)| == |Line(records, team).firstNames|
  {
    var cs := Collaborators(records, team);
    DistinctCard(cs);
    assert (set x | x in cs) == CollaboratorSet(records, team);
  }

  /**
   * A team's count is the number of distinct collaborator strings among its
   * records, at least one, and there is one first name per collaborator.
   */
  lemma TeamCount(records: seq<Row>, team: string)
    requires Summarize(records).Report? && team in Summarize(records).teams
    ensures var line := Summarize(records).teams[team];
            line.count == |CollaboratorSet(records, team)| >= 1 && |line.firstNames| == line.count
  {
    assert Summarize(records).teams[team] == Line(records, team);
    LineCount(records, team);
    var r :| r in records && r.team == team;
    assert r.collaborator in CollaboratorSet(records, team);
  }

  /**
   * The line lists each distinct collaborator of the team once, and the i-th
   * first name is the first whitespace-separated token of the i-th of them.
   */
  lemma FirstNamesOfCollaborators(records: seq<Row>, team: string, i: nat)
    requires Summarize(records).Report? && team in Summarize(records).teams
    requires i < |Summarize(records).teams[team].collaborators|
    ensures var line := Summarize(records).teams[team];
            && NoDuplicates(line.collaborators)
            && (forall c :: c in line.collaborators <==> c in CollaboratorSet(records, team))
            && Some(line.firstNames[i]) == FirstToken(line.collaborators[i])
            && line.firstNames[i] != []
  {
    var line := Summarize(records).teams[team];
    assert line == Line(records, team);
    CollaboratorsNamed(records, team);
    var cs := Distinct(Collaborators(records, team));
    assert line.collaborators == cs && line.firstNames == FirstNames(cs);
    assert cs[i] in cs;
  }

  /** Records produced by the extractor never make the summary fail. */
  lemma WellFormedRecordsAreNamed(records: seq<Row>)
    requires forall r :: r in records ==> WellFormed(r)
    ensures Summarize(records) != MalformedName
  {
  }

  /**
   * Reordering the records (for example processing the files in another
   * order) changes neither the kind of report nor its teams.
   */
  lemma ReportKindIgnoresOrder(a: seq<Row>, b: seq<Row>)
    requires multiset(a) == multiset(b)
    ensures Summarize(a).NoRecords? == Summarize(b).NoRecords?
    ensures Summarize(a).MalformedName? == Summarize(b).MalformedName?
    ensures Summarize(a).Report? ==> Summarize(b).Report? && Summarize(a).teams.Keys == Summarize(b).teams.Keys
  {
    SameElements(a, b);
    assert Teams(a) == Teams(b);
    assert Named(a) == Named(b);
  }

  /** Reordering the records changes no team's count. */
  lemma SummaryIgnoresOrder(a: seq<Row>, b: seq<Row>, t: string)
    requires multiset(a) == multiset(b)
    requires Summarize(a).Report? && t in Summarize(a).teams
    ensures Summarize(b).Report? && t in Summarize(b).teams
    ensures Summarize(a).teams[t].count == Summarize(b).teams[t].count
  {
    ReportKindIgnoresOrder(a, b);
    SameElements(a, b);
    assert Summarize(a).teams[t] == Line(a, t);
    assert Summarize(b).teams[t] == Line(b, t);
    LineCount(a, t);
    LineCount(b, t);
    assert CollaboratorSet(a, t) == CollaboratorSet(b, t);
  }

  /** Sequences with the same multiset have the same elements. */
  lemma SameElements(a: seq<Row>, b: seq<Row>)
    requires multiset(a) == multiset(b)
    ensures forall r :: r in a <==> r in b
    ensures a == [] <==> b == []
  {
    forall r ensures r in a <==> r in b {
      assert r in a <==> r in multiset(a);
      assert r in b <==> r in multiset(b);
    }
    if a == [] { assert |multiset(b)| == 0; }
    if b == [] { assert |multiset(a)| == 0; }
  }

  /** A map with the one key `k`, bound to `v`. */
  lemma SingletonMap<K, V>(m: map<K, V>, k: K, v: V)
    requires m.Keys == {k} && m[k] == v
    ensures m == map[k := v]
  {
  }

  /** Two records of one team: a collaborator with a technology and another with none. */
  function TwoRecords(team: string, c1: string, c2: string): seq<Row> {
    [Row(team, c1, "Dev", "Python"), Row(team, c2, "Dev", NoTechnology)]
  }

  /** Both collaborators are in the team's column, in record order, and are already distinct. */
  lemma TwoRecordsCollaborators(team: string, c1: string, c2: string)
    requires c1 != c2
    ensures Collaborators(TwoRecords(team, c1, c2), team) == [c1, c2]
    ensures Distinct([c1, c2]) == [c1, c2]
  {
    var records := TwoRecords(team, c1, c2);
    assert records[..1] == [records[0]];
    assert records[..1][..0] == [];
    assert Collaborators(records[..1], team) == [c1];
    assert [c1, c2][..1] == [c1];
    assert [c1][..0] == [];
    assert Distinct([c1]) == [c1];
  }

  /** The records name one team only. */
  lemma TwoRecordsTeams(team: string, c1: string, c2: string)
    ensures Teams(TwoRecords(team, c1, c2)) == {team}
  {
    var records := TwoRecords(team, c1, c2);
    forall t ensures t in Teams(records) <==> t == team {
      if t == team { assert records[0] in records; }
    }
  }

  /** Both collaborators have a first name. */
  lemma TwoRecordsNamed(team: string, c1: string, c2: string)
    requires !AllSpace(c1) && !AllSpace(c2)
    ensures Named(TwoRecords(team, c1, c2))
  {
    var records := TwoRecords(team, c1, c2);
    forall r | r in records ensures !AllSpace(r.collaborator) {
      assert r == records[0] || r == records[1];
    }
  }

  /** The first names of two collaborators, in order. */
  lemma TwoFirstNames(c1: string, c2: string, w1: string, w2: string)
    requires FirstToken(c1) == Some(w1) && FirstToken(c2) == Some(w2)
    ensures FirstNames([c1, c2]) == [w1, w2]
  {
  }

  /**
   * Two different collaborators "w1 r1" and "w2 r2" of one team: the team's
   * line lists both in record order, counts 2, and has first names w1 and w2.
   */
  lemma TwoCollaboratorsLine(team: string, w1: string, r1: string, w2: string, r2: string)
    requires IsWord(w1) && IsWord(w2) && w1 + " " + r1 != w2 + " " + r2
    ensures var c1, c2 := w1 + " " + r1, w2 + " " + r2;
            Named(TwoRecords(team, c1, c2))
            && Line(TwoRecords(team, c1, c2), team) == TeamLine([c1, c2], 2, [w1, w2])
  {
    var c1, c2 := w1 + " " + r1, w2 + " " + r2;
    var records := TwoRecords(team, c1, c2);
    FirstTokenBeforeBlank(w1, r1);
    FirstTokenBeforeBlank(w2, r2);
    TwoFirstNames(c1, c2, w1, w2);
    TwoRecordsNamed(team, c1, c2);
    TwoRecordsCollaborators(team, c1, c2);
  }

  /**
   * The summary of those two records: one line, for their team, counting 2,
   * with first names w1 and w2 ("John Doe" and "Jane Roe" give John and Jane).
   */
  lemma TwoCollaboratorsSummary(team: string, w1: string, r1: string, w2: string, r2: string)
    requires IsWord(w1) && IsWord(w2) && w1 + " " + r1 != w2 + " " + r2
    ensures var c1, c2 := w1 + " " + r1, w2 + " " + r2;
            Summarize(TwoRecords(team, c1, c2)) == Report(map[team := TeamLine([c1, c2], 2, [w1, w2])])
  {
    var c1, c2 := w1 + " " + r1, w2 + " " + r2;
    var records := TwoRecords(team, c1, c2);
    TwoCollaboratorsLine(team, w1, r1, w2, r2);
    TwoRecordsTeams(team, c1, c2);
    SummaryShape(records);
    SummaryLine(records, team);
    SingletonMap(Summarize(records).teams, team, Line(records, team));
  }
}
