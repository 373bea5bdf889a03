/**
 * The data checks of the loader: canonical commission names, and the sets of
 * commission and ministry names collected from the JSON exports (given here as
 * in-memory records instead of files).
 */
module CheckData {
  import opened Wrappers
  import opened PyStr

  /** The word for "committee", removed wherever it appears. */
  const CommitteeWord: string := "لجنة"
  /** Any name containing this stem ("justice") is the justice commission. */
  const JusticeStem: string := "عدل"
  const JusticeKey: string := "العدل"
  /** "Public finance oversight", kept whole whatever surrounds it. */
  const FinanceOversight: string := "مراقبة المالية العامة"
  /** "Group": a deputy function naming a parliamentary group, not a commission. */
  const GroupWord: string := "فريق"
  /** The conjunction "و " is glued to the next word. */
  const WawSpace: string := "و "
  const Waw: string := "و"
  /** Lam with hamza below is spelled lam-alef. */
  const LamHamza: string := "لإ"
  const LamAlef: string := "لا"
  /** Longer normalised names are cut down to their first word. */
  const MaxLength: nat := 40
  const CutLength: nat := 30

  /** The rewritten name that `process_commission` computes before its case analysis. */
  function Normalise(word: string): (n: string)
    ensures n == [] || (!IsSpace(n[0]) && !IsSpace(n[|n| - 1]))
  {
    Strip(Replace(Replace(Replace(word, CommitteeWord, ""), WawSpace, Waw), LamHamza, LamAlef))
  }

  /**
   * `key` is what a long normalised name `n` is cut down to: the first word of its
   * first CutLength characters, which is never empty.
   */
  ghost predicate FirstWordKey(n: string, key: string) {
    && 0 < |key| <= CutLength
    && ' ' !in key
    && key <= n
    && (|key| == CutLength || (|key| < |n| && n[|key|] == ' '))
  }

  /** Python's `process_commission(word)`: the canonical key of a commission name. */
  function ProcessCommission(word: string): (key: string)
    ensures Contains(word, JusticeStem) ==> key == JusticeKey
    ensures !Contains(word, JusticeStem) && Contains(word, FinanceOversight) ==>
      key == FinanceOversight
    ensures !Contains(word, JusticeStem) && !Contains(word, FinanceOversight) ==>
      if |Normalise(word)| > MaxLength then FirstWordKey(Normalise(word), key)
      else key == Normalise(word)
  {
    var n := Normalise(word);
    if Contains(word, JusticeStem) then JusticeKey
    else if Contains(word, FinanceOversight) then FinanceOversight
    else if |n| > MaxLength then FirstWordOf(n)
    else n
  }

  /** `s[:30].split(" ")[0]` on a normalised name longer than MaxLength. */
  function FirstWordOf(n: string): (key: string)
    requires |n| > MaxLength && !IsSpace(n[0])
    ensures FirstWordKey(n, key)
  {
    var head := n[..CutLength];
    SplitFirst(head, " ");
    var key := Split(head, " ")[0];
    ContainsChar(key, ' ');
    key
  }

  // ----- Records of the JSON exports -----

  /** A deputy of one term's export; `role` is the optional `function` key. */
  datatype DeputyRecord = DeputyRecord(name: string, party: string, role: Option<string>)

  /** The three terms whose exports are read, 2011-2016, 2016-2021 and 2021-2026. */
  datatype Parliament = Parliament(
    term2011: seq<DeputyRecord>, term2016: seq<DeputyRecord>, term2021: seq<DeputyRecord>)
  {
    function Terms(): (ts: seq<seq<DeputyRecord>>)
      ensures |ts| == 3 && term2011 in ts && term2016 in ts && term2021 in ts
    {
      [term2011, term2016, term2021]
    }
  }

  /** One reading of a bill, with its optional `commission` key. */
  datatype Reading = Reading(commission: Option<string>)

  /** An entry of `projets_de_loi` or `propositions_de_loi`. */
  datatype Bill = Bill(title: string, url: string, readings: seq<Reading>)

  /** An entry of `textes_de_loi`, which names its commission directly. */
  datatype LawText = LawText(title: string, url: string, commission: Option<string>)

  /** The laws export. */
  datatype LawsExport = LawsExport(projets: seq<Bill>, propositions: seq<Bill>, textes: seq<LawText>)

  /** A question of the questions exports; `to` is the ministry it is addressed to. */
  datatype Question = Question(to: string)

  // ----- What each extraction collects -----

  /** A deputy whose function is given and is not a parliamentary group sits in a commission. */
  predicate SitsInCommission(d: DeputyRecord) {
    d.role.Some? && !Contains(d.role.value, GroupWord)
  }

  function CommissionOf(d: DeputyRecord): string
    requires SitsInCommission(d)
  {
    ProcessCommission(d.role.value)
  }

  ghost function TermCommissions(term: seq<DeputyRecord>): set<string> {
    set d | d in term && SitsInCommission(d) :: CommissionOf(d)
  }

  /** The canonical names of the commissions of all deputies of all terms. */
  ghost function DeputyCommissions(terms: seq<seq<DeputyRecord>>): set<string> {
    set t, d | t in terms && d in t && SitsInCommission(d) :: CommissionOf(d)
  }

  /** The canonical names of the commissions of all readings of the bills. */
  ghost function ReadingCommissions(bills: seq<Bill>): set<string> {
    set b, r | b in bills && r in b.readings && r.commission.Some? ::
      ProcessCommission(r.commission.value)
  }

  ghost function TextCommissions(texts: seq<LawText>): set<string> {
    set t | t in texts && t.commission.Some? :: ProcessCommission(t.commission.value)
  }

  /** The canonical names of all commissions mentioned in the laws export. */
  ghost function LawCommissions(laws: LawsExport): set<string> {
    ReadingCommissions(laws.projets) + ReadingCommissions(laws.propositions)
      + TextCommissions(laws.textes)
  }

  /** The ministries all questions are addressed to, as written. */
  ghost function QuestionMinistries(files: seq<seq<Question>>): set<string> {
    set f, q | f in files && q in f :: q.to
  }

  // ----- The extraction loops -----

  /** Python's `extract_commissions_from_deputies()` over the three terms. */
  method ExtractCommissionsFromDeputies(parliament: Parliament) returns (commissions: set<string>)
    ensures commissions == DeputyCommissions(parliament.Terms())
  {
    var terms := parliament.Terms();
    commissions := {};
    for i := 0 to |terms|
      invariant commissions == DeputyCommissions(terms[..i])
    {
      var data := terms[i];
      for j := 0 to |data|
        invariant commissions == DeputyCommissions(terms[..i]) + TermCommissions(data[..j])
      {
        var deputy := data[j];
        if deputy.role.Some? {
          if Contains(deputy.role.value, GroupWord) {
          } else {
            commissions := commissions + {ProcessCommission(deputy.role.value)};
          }
        }
        TermCommissionsSnoc(data, j);
      }
      assert data[..|data|] == data;
      DeputyCommissionsSnoc(terms, i);
    }
    assert terms[..|terms|] == terms;
  }

  lemma TermCommissionsSnoc(term: seq<DeputyRecord>, j: nat)
    requires j < |term|
    ensures TermCommissions(term[..j + 1]) ==
      TermCommissions(term[..j]) + (if SitsInCommission(term[j]) then {CommissionOf(term[j])} else {})
  {
    assert term[..j + 1] == term[..j] + [term[j]];
  }

  lemma DeputyCommissionsSnoc(terms: seq<seq<DeputyRecord>>, i: nat)
    requires i < |terms|
    ensures DeputyCommissions(terms[..i + 1]) == DeputyCommissions(terms[..i]) + TermCommissions(terms[i])
  {
    assert terms[..i + 1] == terms[..i] + [terms[i]];
  }
  /** The loop over the readings of the bills of one section of the laws export. */
  method AddReadingCommissions(bills: seq<Bill>, acc: set<string>) returns (commissions: set<string>)
    ensures commissions == acc + ReadingCommissions(bills)
  {
    commissions := acc;
    for i := 0 to |bills|
      invariant commissions == acc + ReadingCommissions(bills[..i])
    {
      commissions := AddCommissionsOfReadings(bills[i].readings, commissions);
      ReadingCommissionsSnoc(bills, i);
    }
    assert bills[..|bills|] == bills;
  }

  /** The inner loop: the commissions of the readings of one bill. */
  method AddCommissionsOfReadings(readings: seq<Reading>, acc: set<string>) returns (commissions: set<string>)
    ensures commissions == acc + ReadingsOf(readings)
  {
    commissions := acc;
    for j := 0 to |readings|
      invariant commissions == acc + ReadingsOf(readings[..j])
    {
      if readings[j].commission.Some? {
        commissions := commissions + {ProcessCommission(readings[j].commission.value)};
      }
      ReadingsOfSnoc(readings, j);
    }
    assert readings[..|readings|] == readings;
  }

  ghost function ReadingsOf(readings: seq<Reading>): set<string> {
    set r | r in readings && r.commission.Some? :: ProcessCommission(r.commission.value)
  }

  lemma ReadingsOfSnoc(readings: seq<Reading>, j: nat)
    requires j < |readings|
    ensures ReadingsOf(readings[..j + 1]) == ReadingsOf(readings[..j])
      + (if readings[j].commission.Some? then {ProcessCommission(readings[j].commission.value)} else {})
  {
    assert readings[..j + 1] == readings[..j] + [readings[j]];
  }

  lemma ReadingCommissionsSnoc(bills: seq<Bill>, i: nat)
    requires i < |bills|
    ensures ReadingCommissions(bills[..i + 1]) == ReadingCommissions(bills[..i]) + ReadingsOf(bills[i].readings)
  {
    assert bills[..i + 1] == bills[..i] + [bills[i]];
  }

  /** Python's `extract_commissions_from_laws()`. */
  method ExtractCommissionsFromLaws(laws: LawsExport) returns (commissions: set<string>)
    ensures commissions == LawCommissions(laws)
  {
    commissions := AddReadingCommissions(laws.projets, {});
    commissions := AddReadingCommissions(laws.propositions, commissions);
    ghost var readings := commissions;
    var texts := laws.textes;
    for i := 0 to |texts|
      invariant commissions == readings + TextCommissions(texts[..i])
    {
      if texts[i].commission.Some? {
        commissions := commissions + {ProcessCommission(texts[i].commission.value)};
      }
      TextCommissionsSnoc(texts, i);
    }
    assert texts[..|texts|] == texts;
  }

  lemma TextCommissionsSnoc(texts: seq<LawText>, i: nat)
    requires i < |texts|
    ensures TextCommissions(texts[..i + 1]) == TextCommissions(texts[..i])
      + (if texts[i].commission.Some? then {ProcessCommission(texts[i].commission.value)} else {})
  {
    assert texts[..i + 1] == texts[..i] + [texts[i]];
  }

  /** Python's `extract_ministry_from_questions()` over the question files. */
  method ExtractMinistryFromQuestions(files: seq<seq<Question>>) returns (ministries: set<string>)
    ensures ministries == QuestionMinistries(files)
  {
    ministries := {};
    for i := 0 to |files|
      invariant ministries == QuestionMinistries(files[..i])
    {
      var data := files[i];
      for j := 0 to |data|
        invariant ministries == QuestionMinistries(files[..i]) + (set q | q in data[..j] :: q.to)
      {
        ministries := ministries + {data[j].to};
        assert data[..j + 1] == data[..j] + [data[j]];
      }
      assert data[..|data|] == data;
      assert files[..i + 1] == files[..i] + [files[i]];
    }
    assert files[..|files|] == files;
  }
}
