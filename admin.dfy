/**
 * The admin dashboard: leads joined with their maturity results, the search
 * filter, the CSV export, the summary cards and the two-step delete-all guard.
 * Database calls, the confirm/prompt dialogs and date/number formatting come
 * in as parameters.
 */
module Admin {
  import opened Wrappers
  import opened Text
  import opened Means
  import opened Leads

  datatype LeadWithResult = LeadWithResult(lead: Lead, result: Option<MaturityResult>)

  // ---------------------------------------------------------------- join

  /** `results.find(result => result.lead_id === leadId)`. */
  function FindResult(results: seq<MaturityResult>, leadId: string): (r: Option<MaturityResult>)
    ensures r.None? <==> forall i :: 0 <= i < |results| ==> results[i].leadId != leadId
    ensures r.Some? ==> exists i :: (0 <= i < |results| && results[i] == r.value
      && forall j :: 0 <= j < i ==> results[j].leadId != leadId)
    ensures r.Some? ==> r.value.leadId == leadId
  {
    if |results| == 0 then None
    else if results[0].leadId == leadId then Some(results[0])
    else
      var r := FindResult(results[1..], leadId);
      assert r.Some? ==> exists i :: (0 <= i < |results[1..]| && results[1..][i] == r.value
        && (forall j :: 0 <= j < i ==> results[1..][j].leadId != leadId)
        && forall j :: 0 <= j < i + 1 ==> results[j].leadId != leadId);
      r
  }

  /** Each lead, in order, paired with the first result that names it. */
  function JoinResults(leads: seq<Lead>, results: seq<MaturityResult>): (r: seq<LeadWithResult>)
    ensures |r| == |leads|
    ensures forall i :: 0 <= i < |leads| ==> r[i].lead == leads[i] && r[i].result == FindResult(results, leads[i].id)
  {
    seq(|leads|, i requires 0 <= i < |leads| => LeadWithResult(leads[i], FindResult(results, leads[i].id)))
  }

  // ---------------------------------------------------------------- search

  /** Case-insensitive substring test on name, email and company. */
  predicate Matches(l: LeadWithResult, term: string) {
    var t := ToLower(term);
    Contains(ToLower(l.lead.nome), t) || Contains(ToLower(l.lead.email), t) || Contains(ToLower(l.lead.empresa), t)
  }

  /** `filteredLeads`. */
  function FilterLeads(leads: seq<LeadWithResult>, term: string): (r: seq<LeadWithResult>)
    ensures |r| <= |leads|
    ensures forall i :: 0 <= i < |r| ==> Matches(r[i], term)
  {
    Filter(leads, l => Matches(l, term))
  }

  /** A lead is listed exactly when it matches, and the listing keeps the leads' order. */
  lemma FilterLeadsExactly(leads: seq<LeadWithResult>, term: string, l: LeadWithResult)
    ensures l in FilterLeads(leads, term) <==> l in leads && Matches(l, term)
    ensures IsSubsequence(FilterLeads(leads, term), leads)
  {
    FilterMembers(leads, l => Matches(l, term), l);
    FilterSubsequence(leads, l => Matches(l, term));
  }

  /** An empty search term lists every lead. */
  lemma EmptyTermKeepsAll(leads: seq<LeadWithResult>)
    ensures FilterLeads(leads, "") == leads
  {
    forall i | 0 <= i < |leads| ensures Matches(leads[i], "") {
      assert IsPrefix("", ToLower(leads[i].lead.nome));
    }
    FilterKeepsAll(leads, l => Matches(l, ""));
  }

  /** The term's own letter case does not matter. */
  lemma FilterIgnoresTermCase(leads: seq<LeadWithResult>, term: string)
    ensures FilterLeads(leads, ToLower(term)) == FilterLeads(leads, term)
  {
    ToLowerIdempotent(term);
    FilterSameTest(leads, l => Matches(l, ToLower(term)), l => Matches(l, term));
  }

  // ---------------------------------------------------------------- CSV

  const CsvHeaders: seq<string> := [
    "Nome", "Email", "Empresa", "Cargo", "Telefone", "Data Cadastro", "Score Geral", "Nível Maturidade"]

  /** `overall_score?.toFixed(1) || 'N/A'`. */
  function ScoreCell(result: Option<MaturityResult>, fmtScore: real -> string): string {
    if result.None? || fmtScore(result.value.overallScore) == "" then "N/A" else fmtScore(result.value.overallScore)
  }

  /** `maturity_level || 'N/A'`: a level of 0 reads as missing too. */
  function LevelCell(result: Option<MaturityResult>): (s: string)
    ensures s == "N/A" <==> result.None? || result.value.maturityLevel == 0
  {
    if result.None? || result.value.maturityLevel == 0 then "N/A" else IntToString(result.value.maturityLevel)
  }

  /** One export record, its values in header order. */
  function CsvRow(l: LeadWithResult, fmtDate: string -> string, fmtScore: real -> string): (cells: seq<string>)
    ensures |cells| == |CsvHeaders|
  {
    [l.lead.nome, l.lead.email, l.lead.empresa, l.lead.cargo, l.lead.telefone,
     fmtDate(l.lead.createdAt), ScoreCell(l.result, fmtScore), LevelCell(l.result)]
  }

  function QuoteCell(cell: string): string {
    ['"'] + cell + ['"']
  }

  function QuoteCells(cells: seq<string>): (q: seq<string>)
    ensures |q| == |cells|
    ensures forall i :: 0 <= i < |cells| ==> q[i] == QuoteCell(cells[i])
  {
    seq(|cells|, i requires 0 <= i < |cells| => QuoteCell(cells[i]))
  }

  /** A data line: every value wrapped in double quotes, joined by commas. */
  function DataLine(cells: seq<string>): string {
    Join(QuoteCells(cells), ',')
  }

  /** The header line: the keys of the first record, unquoted; no keys when there are no records. */
  function HeaderLine(count: nat): string {
    Join(if count == 0 then [] else CsvHeaders, ',')
  }

  function CsvLines(leads: seq<LeadWithResult>, fmtDate: string -> string, fmtScore: real -> string): (lines: seq<string>)
    ensures |lines| == |leads| + 1
  {
    [HeaderLine(|leads|)] + seq(|leads|, i requires 0 <= i < |leads| => DataLine(CsvRow(leads[i], fmtDate, fmtScore)))
  }

  /** `csvContent`: the header line and one line per listed lead, joined by line feeds. */
  function CsvContent(leads: seq<LeadWithResult>, fmtDate: string -> string, fmtScore: real -> string): string {
    Join(CsvLines(leads, fmtDate, fmtScore), '\n')
  }

  /** With no leads there are no headers and the file is empty. */
  lemma CsvOfNoLeads(fmtDate: string -> string, fmtScore: real -> string)
    ensures CsvContent([], fmtDate, fmtScore) == ""
  {
  }

  /** A lead without a result exports "N/A" as both score and level. */
  lemma CsvWithoutResult(l: LeadWithResult, fmtDate: string -> string, fmtScore: real -> string)
    requires l.result.None?
    ensures CsvRow(l, fmtDate, fmtScore)[6] == "N/A" && CsvRow(l, fmtDate, fmtScore)[7] == "N/A"
  {
  }

  /** A quote-aware reader for one line of quoted, comma-separated values. */
  function ParseQuotedLine(line: string): Option<seq<string>>
    decreases |line|
  {
    if |line| == 0 || line[0] != '"' then None
    else
      match IndexOf(line[1..], '"')
      case None => None
      case Some(k) =>
        var field := line[1..][..k];
        var rest := line[1..][k + 1..];
        if |rest| == 0 then Some([field])
        else if rest[0] != ',' then None
        else
          match ParseQuotedLine(rest[1..])
          case None => None
          case Some(fields) => Some([field] + fields)
  }

  /** No value holds character `c`. */
  predicate Free(cells: seq<string>, c: char) {
    forall k :: 0 <= k < |cells| ==> c !in cells[k]
  }

  /** The reader finds a quoted value's closing quote right after the value. */
  lemma FirstField(c: string, rest: string)
    requires '"' !in c
    ensures IndexOf((QuoteCell(c) + rest)[1..], '"') == Some(|c|)
    ensures (QuoteCell(c) + rest)[1..][..|c|] == c
    ensures (QuoteCell(c) + rest)[1..][|c| + 1..] == rest
  {
    var line := QuoteCell(c) + rest;
    assert line[1..] == c + ['"'] + rest;
    IndexOfAfter(c, '"', rest);
  }

  /** Values without double quotes come back, in column order, from their data line. */
  lemma {:induction false} DataLineRoundTrip(cells: seq<string>)
    requires |cells| >= 1
    requires Free(cells, '"')
    ensures ParseQuotedLine(DataLine(cells)) == Some(cells)
  {
    var q := QuoteCells(cells);
    var c := cells[0];
    assert '"' !in c;
    if |cells| == 1 {
      assert DataLine(cells) == QuoteCell(c) + "";
      FirstField(c, "");
      assert cells == [c];
    } else {
      var tail := DataLine(cells[1..]);
      assert q[1..] == QuoteCells(cells[1..]);
      assert DataLine(cells) == QuoteCell(c) + ([','] + tail);
      FirstField(c, [','] + tail);
      assert Free(cells[1..], '"');
      DataLineRoundTrip(cells[1..]);
      assert cells == [c] + cells[1..];
    }
  }

  lemma DataLineWithoutLineFeed(cells: seq<string>)
    requires Free(cells, '\n')
    ensures '\n' !in DataLine(cells)
  {
    var q := QuoteCells(cells);
    forall k | 0 <= k < |q| ensures '\n' !in q[k] {
      assert q[k] == ['"'] + cells[k] + ['"'];
    }
    NotInJoin(q, ',', '\n');
  }

  lemma HeaderLineWithoutLineFeed(count: nat)
    ensures '\n' !in HeaderLine(count)
  {
    assert forall k :: 0 <= k < |CsvHeaders| ==> '\n' !in CsvHeaders[k];
    NotInJoin(if count == 0 then [] else CsvHeaders, ',', '\n');
  }

  /** The header line and data lines hold no line feed when no value does. */
  lemma LinesWithoutLineFeed(leads: seq<LeadWithResult>, fmtDate: string -> string, fmtScore: real -> string)
    requires forall i :: 0 <= i < |leads| ==> Free(CsvRow(leads[i], fmtDate, fmtScore), '\n')
    ensures forall j :: 0 <= j < |CsvLines(leads, fmtDate, fmtScore)| ==> '\n' !in CsvLines(leads, fmtDate, fmtScore)[j]
  {
    var lines := CsvLines(leads, fmtDate, fmtScore);
    HeaderLineWithoutLineFeed(|leads|);
    forall j | 1 <= j < |lines| ensures '\n' !in lines[j] {
      assert lines[j] == DataLine(CsvRow(leads[j - 1], fmtDate, fmtScore));
      DataLineWithoutLineFeed(CsvRow(leads[j - 1], fmtDate, fmtScore));
    }
  }

  /**
   * Read back with a line split and the quote-aware reader, a non-empty export
   * gives the eight headers and then, line by line, each listed lead's values
   * in header order, provided no value holds a double quote or a line feed.
   */
  lemma CsvRoundTrip(leads: seq<LeadWithResult>, fmtDate: string -> string, fmtScore: real -> string)
    requires |leads| >= 1
    requires forall i :: 0 <= i < |leads| ==>
      Free(CsvRow(leads[i], fmtDate, fmtScore), '"') && Free(CsvRow(leads[i], fmtDate, fmtScore), '\n')
    ensures |Split(CsvContent(leads, fmtDate, fmtScore), '\n')| == |leads| + 1
    ensures Split(CsvContent(leads, fmtDate, fmtScore), '\n')[0] == Join(CsvHeaders, ',')
    ensures forall i :: 0 <= i < |leads| ==>
      ParseQuotedLine(Split(CsvContent(leads, fmtDate, fmtScore), '\n')[i + 1]) == Some(CsvRow(leads[i], fmtDate, fmtScore))
  {
    var lines := CsvLines(leads, fmtDate, fmtScore);
    LinesWithoutLineFeed(leads, fmtDate, fmtScore);
    SplitJoin(lines, '\n');
    forall i | 0 <= i < |leads|
      ensures ParseQuotedLine(lines[i + 1]) == Some(CsvRow(leads[i], fmtDate, fmtScore))
    {
      DataLineRoundTrip(CsvRow(leads[i], fmtDate, fmtScore));
    }
  }

  /** A double quote inside a value is not escaped, so the line no longer reads back. */
  lemma UnescapedQuoteBreaksLine()
    ensures ParseQuotedLine(DataLine(["a\"b"])) == None
  {
    var line := DataLine(["a\"b"]);
    assert line == "\"a\"b\"";
    IndexOfAfter("a", '"', "b\"");
    assert line[1..] == "a" + ['"'] + "b\"";
  }

  // ---------------------------------------------------------------- summary cards

  /** The leads with a maturity result. */
  function WithResult(leads: seq<LeadWithResult>): seq<LeadWithResult> {
    Filter(leads, (l: LeadWithResult) => l.result.Some?)
  }

  /** The overall scores of the leads with a result, in order. */
  function ResultScores(leads: seq<LeadWithResult>): (xs: seq<real>)
    ensures |xs| == |WithResult(leads)|
  {
    var w := WithResult(leads);
    seq(|w|, i requires 0 <= i < |w| => w[i].result.value.overallScore)
  }

  /** The "Score Médio" value: the mean overall score of the leads with a result; `None` shows as '0'. */
  function AverageScore(leads: seq<LeadWithResult>): (m: Option<real>)
    ensures m.None? <==> |WithResult(leads)| == 0
  {
    Mean(ResultScores(leads))
  }

  function AverageScoreText(leads: seq<LeadWithResult>, fmtScore: real -> string): string {
    match AverageScore(leads)
    case None => "0"
    case Some(x) => fmtScore(x)
  }

  /** "Com Resultado" counts exactly the leads with a result; the average lies within the bounds of their scores. */
  lemma SummaryCards(leads: seq<LeadWithResult>, lo: real, hi: real, l: LeadWithResult)
    requires forall i :: 0 <= i < |leads| && leads[i].result.Some? ==> lo <= leads[i].result.value.overallScore <= hi
    ensures l in WithResult(leads) <==> l in leads && l.result.Some?
    ensures |WithResult(leads)| > 0 ==> lo <= AverageScore(leads).value <= hi
  {
    FilterMembers(leads, (l: LeadWithResult) => l.result.Some?, l);
    var w := WithResult(leads);
    forall i | 0 <= i < |w| ensures lo <= ResultScores(leads)[i] <= hi {
      FilterMembers(leads, (l: LeadWithResult) => l.result.Some?, w[i]);
    }
    if |w| > 0 {
      MeanWithin(ResultScores(leads), lo, hi);
    }
  }

  /** The "Hoje" card: leads whose creation day, as formatted, is today's. */
  function TodayCount(leads: seq<LeadWithResult>, dayOf: string -> string, today: string): (n: nat)
    ensures n == CountWhere(leads, CreatedOn(dayOf, today))
    ensures n <= |leads|
    ensures n == 0 <==> forall i :: 0 <= i < |leads| ==> dayOf(leads[i].lead.createdAt) != today
    ensures n == |leads| <==> forall i :: 0 <= i < |leads| ==> dayOf(leads[i].lead.createdAt) == today
  {
    FilterCount(leads, CreatedOn(dayOf, today));
    CountWhereExtremes(leads, CreatedOn(dayOf, today));
    |Filter(leads, CreatedOn(dayOf, today))|
  }

  /** The test of the "Hoje" card: the lead's creation day, as formatted, is today's. */
  function CreatedOn(dayOf: string -> string, today: string): LeadWithResult -> bool {
    (l: LeadWithResult) => dayOf(l.lead.createdAt) == today
  }

  // ---------------------------------------------------------------- page state

  class AdminPage {
    var leads: seq<LeadWithResult>
    var loading: bool

    /** The page starts empty and loading. */
    constructor()
      ensures leads == [] && loading
    {
      leads := [];
      loading := true;
    }

    /**
     * `fetchLeads`: on a failed leads query the list is kept; otherwise it
     * becomes the leads joined with their results (a failed results query
     * leaves every lead without one). Loading ends either way.
     */
    method FetchLeads(leadsData: Option<seq<Lead>>, resultsData: Option<seq<MaturityResult>>)
      modifies this
      ensures !loading
      ensures leadsData.None? ==> leads == old(leads)
      ensures leadsData.Some? ==> leads == JoinResults(leadsData.value, resultsData.GetOr([]))
    {
      loading := true;
      if leadsData.Some? {
        leads := JoinResults(leadsData.value, resultsData.GetOr([]));
      }
      loading := false;
    }

    /**
     * `handleClearAllData`: the delete is requested only after the dialog is
     * confirmed and the prompt answer is exactly "SIM"; a failed delete keeps
     * the list, a successful one reloads it.
     */
    method HandleClearAllData(
      confirmed: bool, typed: Option<string>, deleteFailed: bool,
      leadsData: Option<seq<Lead>>, resultsData: Option<seq<MaturityResult>>)
      returns (deleteRequested: bool)
      modifies this
      ensures deleteRequested <==> confirmed && typed == Some("SIM")
      ensures !deleteRequested ==> leads == old(leads) && loading == old(loading)
      ensures deleteRequested ==> !loading
      ensures deleteRequested && (deleteFailed || leadsData.None?) ==> leads == old(leads)
      ensures deleteRequested && !deleteFailed && leadsData.Some? ==>
        leads == JoinResults(leadsData.value, resultsData.GetOr([]))
    {
      if !confirmed {
        return false;
      }
      if typed != Some("SIM") {
        return false;
      }
      deleteRequested := true;
      loading := true;
      if deleteFailed {
        loading := false;
        return;
      }
      FetchLeads(leadsData, resultsData);
      loading := false;
    }
  }
}
