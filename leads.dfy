/**
 * The rows the admin pages read back from the database, and the two small
 * presentation tables both pages share: the maturity-level badge and the
 * category-id label.
 */
module Leads {
  import opened Wrappers
  import opened Text

  /** A row of the `leads` table. */
  datatype Lead = Lead(
    id: string,
    nome: string,
    email: string,
    empresa: string,
    cargo: string,
    telefone: string,
    createdAt: string)

  /** A stored category score; the report page checks `typeof score === "number"`. */
  datatype ScoreValue = Number(value: real) | NotNumber

  /** A row of the `maturity_results` table; `categoryScores` in stored key order. */
  datatype MaturityResult = MaturityResult(
    id: string,
    leadId: string,
    overallScore: real,
    maturityLevel: int,
    categoryScores: seq<(string, ScoreValue)>,
    createdAt: string)

  /** A badge: its text and its background colour class. */
  datatype Badge = Badge(text: string, color: string)

  /** The `labels` object of the badge, keys 1 to 5 in order. */
  const LevelLabels: seq<string> := ["Inicial", "Básico", "Intermediário", "Avançado", "Otimizado"]

  /** The `colors` object of the badge, keys 1 to 5 in order. */
  const LevelColors: seq<string> := ["bg-red-500", "bg-orange-500", "bg-yellow-500", "bg-blue-500", "bg-green-500"]

  /** `table[level]` on an object keyed 1 to 5: the entry for those keys, nothing for any other. */
  function LevelEntry(table: seq<string>, level: int): (r: Option<string>)
    requires |table| == 5
    ensures r.Some? <==> 1 <= level <= 5
    ensures r.Some? ==> r.value in table
  {
    if 1 <= level <= 5 then Some(table[level - 1]) else None
  }

  const NoLabel := "N/A"
  const NoColor := "bg-gray-500"

  /** `getMaturityLevelBadge`: "Nível <level> - <label>" in the level's colour, "N/A" and gray off the scale. */
  function MaturityLevelBadge(level: int): (b: Badge)
    ensures b.text == "Nível " + IntToString(level) + " - " + LevelEntry(LevelLabels, level).GetOr(NoLabel)
    ensures b.color == NoColor <==> !(1 <= level <= 5)
    ensures 1 <= level <= 5 ==> b.color == LevelEntry(LevelColors, level).value
  {
    Badge("Nível " + IntToString(level) + " - " + LevelEntry(LevelLabels, level).GetOr(NoLabel), LevelEntry(LevelColors, level).GetOr(NoColor))
  }

  /** The five levels get five different labels and five different colours, none of them the fallback. */
  lemma BadgesDistinguishLevels(l: int, m: int)
    requires 1 <= l <= 5 && 1 <= m <= 5 && l != m
    ensures LevelEntry(LevelLabels, l) != LevelEntry(LevelLabels, m) && LevelEntry(LevelColors, l) != LevelEntry(LevelColors, m)
    ensures LevelEntry(LevelLabels, l).value != NoLabel && LevelEntry(LevelColors, l).value != NoColor
  {
  }

  /** `id.replace('-', ' ')`: only the first hyphen becomes a space. */
  function CategoryLabel(id: string): (r: string)
    ensures |r| == |id|
    ensures '-' !in id ==> r == id
    ensures '-' in id ==> r[IndexOf(id, '-').value] == ' ' && r[..IndexOf(id, '-').value] == id[..IndexOf(id, '-').value]
    ensures '-' in id ==> r[IndexOf(id, '-').value + 1..] == id[IndexOf(id, '-').value + 1..]
  {
    ReplaceFirst(id, '-', ' ')
  }
}
