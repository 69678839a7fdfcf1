/**
 * The keyword-based resume profile extractor: it lower-cases the resume,
 * counts keyword hits per role, picks the role with the most hits (first
 * declared wins a tie, Data Analyst when nothing matched), buckets the
 * experience from a few literal cues and derives the seniority from it.
 */
module ProfileExtractor {
  import opened Wrappers
  import opened Text
  import opened Ordering

  datatype Role = SoftwareEngineer | DataAnalyst | DataScientist | ProductManager | DevOpsEngineer
  {
    /** The role's display name, as the profile stores it. */
    function Name(): string
    {
      match this
      case SoftwareEngineer => "Software Engineer"
      case DataAnalyst => "Data Analyst"
      case DataScientist => "Data Scientist"
      case ProductManager => "Product Manager"
      case DevOpsEngineer => "DevOps Engineer"
    }

    /** Position of the role in the declaration order of the keyword table. */
    function Index(): (i: nat)
      ensures i < |Roles| && Roles[i] == this
    {
      match this
      case SoftwareEngineer => 0
      case DataAnalyst => 1
      case DataScientist => 2
      case ProductManager => 3
      case DevOpsEngineer => 4
    }
  }

  /** The roles in the order the keyword table declares them. */
  const Roles: seq<Role> := [SoftwareEngineer, DataAnalyst, DataScientist, ProductManager, DevOpsEngineer]

  datatype Seniority = Junior | MidLevel | Senior
  {
    function Name(): string
    {
      match this
      case Junior => "Junior"
      case MidLevel => "Mid-level"
      case Senior => "Senior"
    }
  }

  /** The extracted profile: the dict the extractor returns, with typed fields. */
  datatype Profile = Profile(
    role: Role,
    experienceYears: nat,
    skills: seq<string>,
    seniority: Seniority,
    rawTextPreview: string)

  /**
   * The profile as the callers hold it: a dict in which each key may be
   * missing. The extractor fills every key but `name`, which the page that
   * calls it attaches afterwards; a dict with no key at all is falsy.
   */
  datatype ProfileDict = ProfileDict(
    role: Option<string>,
    experienceYears: Option<int>,
    skills: Option<seq<string>>,
    seniority: Option<string>,
    rawTextPreview: Option<string>,
    name: Option<string>)
  {
    /** Python's `not d` for this dict: no key present. */
    predicate IsEmpty()
    {
      role.None? && experienceYears.None? && skills.None? && seniority.None?
      && rawTextPreview.None? && name.None?
    }

    /** `d.get('role', 'Professional')`: the role the nuggets and the emails use. */
    function RoleOr(): string
    {
      role.GetOr("Professional")
    }
  }

  /** The dict the extractor returns for a profile. */
  function AsDict(p: Profile): (d: ProfileDict)
    ensures !d.IsEmpty() && d.name.None?
  {
    ProfileDict(Some(p.role.Name()), Some(p.experienceYears as int), Some(p.skills),
      Some(p.seniority.Name()), Some(p.rawTextPreview), None)
  }

  /** The keyword lists, all lower-case, one per role in the order of `Roles`. */
  const KeywordTable: seq<seq<string>> := [
    ["python", "java", "react", "javascript", "backend", "frontend", "api", "docker", "kubernetes"],
    ["excel", "tableau", "power bi", "sql", "pandas", "visualization", "dashboard", "reporting", "rfm", "eda"],
    ["machine learning", "deep learning", "tensorflow", "pytorch", "scikit-learn", "ml", "ai", "pandas", "numpy"],
    ["product management", "roadmap", "stakeholder", "user research", "kpi", "metrics"],
    ["aws", "azure", "ci/cd", "terraform", "jenkins", "infrastructure"]]

  /** The keyword list of one role. */
  function Keywords(r: Role): seq<string>
  {
    KeywordTable[r.Index()]
  }

  /** `kw` is on one of the lists of `table`. */
  ghost predicate InTable(kw: string, table: seq<seq<string>>)
  {
    exists j :: 0 <= j < |table| && kw in table[j]
  }

  /** A keyword of some role. */
  ghost predicate IsKeyword(kw: string)
  {
    InTable(kw, KeywordTable)
  }

  lemma KeywordListsCommaFree()
    ensures forall i :: 0 <= i < |KeywordTable[0]| ==> ',' !in KeywordTable[0][i]
    ensures forall i :: 0 <= i < |KeywordTable[1]| ==> ',' !in KeywordTable[1][i]
    ensures forall i :: 0 <= i < |KeywordTable[2]| ==> ',' !in KeywordTable[2][i]
    ensures forall i :: 0 <= i < |KeywordTable[3]| ==> ',' !in KeywordTable[3][i]
    ensures forall i :: 0 <= i < |KeywordTable[4]| ==> ',' !in KeywordTable[4][i]
  {
  }

  /** No keyword contains a comma, so comma-joined skills stay apart. */
  lemma KeywordsCommaFree(kw: string)
    requires IsKeyword(kw)
    ensures ',' !in kw
  {
    KeywordListsCommaFree();
  }

  // ---------------------------------------------------------------------
  // Specification of the counting loops

  /** The keywords of `kws` that occur in `text`, in list order. */
  function Hits(text: string, kws: seq<string>): (h: seq<string>)
    ensures |h| <= |kws|
    decreases |kws|
  {
    if kws == [] then []
    else
      var last := kws[|kws| - 1];
      Hits(text, kws[..|kws| - 1]) + (if Contains(text, last) then [last] else [])
  }

  /** The hits are exactly the keywords of the list that occur in the text. */
  lemma {:induction false} HitsExact(text: string, kws: seq<string>)
    ensures forall kw :: kw in Hits(text, kws) <==> kw in kws && Contains(text, kw)
    decreases |kws|
  {
    if kws != [] {
      var init := kws[..|kws| - 1];
      HitsExact(text, init);
      assert kws == init + [kws[|kws| - 1]];
    }
  }

  /** Extending a prefix of the list by one keyword adds that keyword to the hits exactly when it occurs. */
  lemma HitsStep(text: string, kwlist: seq<string>, k: nat)
    requires k < |kwlist|
    ensures var kw := kwlist[k];
      var step := if Contains(text, kw) then [kw] else [];
      Hits(text, kwlist[..k + 1]) == Hits(text, kwlist[..k]) + step
  {
    assert kwlist[..k + 1][..k] == kwlist[..k];
  }

  /** How many of the role's keywords occur in `text` (the role's score). */
  function KeywordCount(text: string, r: Role): nat
  {
    |Hits(text, Keywords(r))|
  }

  /** The scores of all roles, in declaration order. */
  function Scores(text: string): (s: seq<nat>)
    ensures |s| == |Roles|
    ensures forall r: Role :: s[r.Index()] == KeywordCount(text, r)
  {
    seq(|Roles|, j requires 0 <= j < |Roles| => |Hits(text, KeywordTable[j])|)
  }

  /** The keywords of the first `n` lists of `table` that occur in `text`. */
  function SkillsUpTo(text: string, table: seq<seq<string>>, n: nat): set<string>
    requires n <= |table|
  {
    if n == 0 then {} else SkillsUpTo(text, table, n - 1) + Elements(Hits(text, table[n - 1]))
  }

  /** The hit counts of the first `n` lists of `table`. */
  function ScoresUpTo(text: string, table: seq<seq<string>>, n: nat): seq<nat>
    requires n <= |table|
  {
    if n == 0 then [] else ScoresUpTo(text, table, n - 1) + [|Hits(text, table[n - 1])|]
  }

  lemma {:induction false} ScoresUpToExact(text: string, table: seq<seq<string>>, n: nat)
    requires n <= |table|
    ensures |ScoresUpTo(text, table, n)| == n
    ensures forall j :: 0 <= j < n ==> ScoresUpTo(text, table, n)[j] == |Hits(text, table[j])|
  {
    if n > 0 {
      ScoresUpToExact(text, table, n - 1);
    }
  }

  /** The first `n` lists hold a keyword iff the first `n - 1` do or list `n - 1` does. */
  lemma InTableStep(kw: string, table: seq<seq<string>>, n: nat)
    requires 0 < n <= |table|
    ensures InTable(kw, table[..n]) <==> InTable(kw, table[..n - 1]) || kw in table[n - 1]
  {
    if InTable(kw, table[..n]) {
      var j :| 0 <= j < n && kw in table[..n][j];
      if j < n - 1 {
        assert kw in table[..n - 1][j];
      }
    }
    if InTable(kw, table[..n - 1]) {
      var j :| 0 <= j < n - 1 && kw in table[..n - 1][j];
      assert kw in table[..n][j];
    }
    if kw in table[n - 1] {
      assert kw in table[..n][n - 1];
    }
  }

  lemma {:induction false} SkillsUpToExact(text: string, table: seq<seq<string>>, n: nat, kw: string)
    requires n <= |table|
    ensures kw in SkillsUpTo(text, table, n) <==> InTable(kw, table[..n]) && IsSubstring(kw, text)
  {
    if n > 0 {
      SkillsUpToExact(text, table, n - 1, kw);
      HitsExact(text, table[n - 1]);
      InTableStep(kw, table, n);
    }
  }

  /**
   * Python's `max(seq)` on indices keyed by `s`: it scans left to right and
   * moves only on a strictly larger value, so it returns the first maximum.
   */
  function FirstArgMax(s: seq<nat>): (b: nat)
    requires |s| > 0
    ensures b < |s|
    ensures forall j :: 0 <= j < |s| ==> s[j] <= s[b]
    ensures forall j :: 0 <= j < b ==> s[j] < s[b]
    decreases |s|
  {
    if |s| == 1 then 0
    else
      var b := FirstArgMax(s[..|s| - 1]);
      if s[|s| - 1] > s[b] then |s| - 1 else b
  }

  /** The role choice from the scores: the first maximum, or Data Analyst if nothing matched. */
  function ChooseRole(s: seq<nat>): Role
    requires |s| == |Roles|
  {
    var best := FirstArgMax(s);
    if s[best] == 0 then DataAnalyst else Roles[best]
  }

  /** The role the extractor reports for the lower-cased text. */
  function RoleOf(text: string): Role
  {
    ChooseRole(Scores(text))
  }

  predicate SeniorCue(text: string)
  {
    Contains(text, "senior") || Contains(text, "5+") || Contains(text, "5 years")
  }

  predicate LeadCue(text: string)
  {
    Contains(text, "lead") || Contains(text, "3+") || Contains(text, "3 years")
  }

  predicate JuniorCue(text: string)
  {
    Contains(text, "junior") || Contains(text, "1+") || Contains(text, "1 year")
  }

  /** The experience estimate: the first bucket whose cue occurs wins. */
  function ExperienceYears(text: string): nat
  {
    if SeniorCue(text) then 6
    else if LeadCue(text) then 4
    else if JuniorCue(text) then 2
    else 1
  }

  /** Seniority as a threshold on experience years. */
  function SeniorityOf(exp: int): Seniority
  {
    if exp >= 5 then Senior else if exp >= 3 then MidLevel else Junior
  }

  /** The first 100 characters of the original text, newlines as spaces, then "..." if it was longer. */
  function Preview(resumeText: string): (r: string)
    ensures |r| <= 103
    ensures |resumeText| > 100 ==> |r| == 103 && r[100..] == "..."
    ensures |resumeText| <= 100 ==> |r| == |resumeText|
    ensures forall i :: 0 <= i < |resumeText| && i < 100 ==>
      r[i] == (if resumeText[i] == '\n' then ' ' else resumeText[i])
    ensures '\n' !in r
  {
    var head := if |resumeText| <= 100 then resumeText else resumeText[..100];
    ReplaceNewlines(head) + (if |resumeText| > 100 then "..." else "")
  }

  /** `p` is the profile the extractor returns for a non-empty `resumeText`. */
  ghost predicate Describes(p: Profile, resumeText: string)
  {
    var text := Lower(resumeText);
    && p.role == RoleOf(text)
    && p.experienceYears == ExperienceYears(text)
    && p.seniority == SeniorityOf(p.experienceYears)
    && StrictlySorted(p.skills)
    && (forall kw :: kw in p.skills <==> IsKeyword(kw) && IsSubstring(kw, text))
    && p.rawTextPreview == Preview(resumeText)
  }

  // ---------------------------------------------------------------------
  // The extractor

  /** Every list of the table taken together: the keywords on some list that occur in `text`. */
  lemma SkillsOfTable(text: string, table: seq<seq<string>>)
    ensures forall kw :: kw in SkillsUpTo(text, table, |table|) <==> InTable(kw, table) && IsSubstring(kw, text)
  {
    forall kw ensures kw in SkillsUpTo(text, table, |table|) <==> InTable(kw, table) && IsSubstring(kw, text) {
      SkillsUpToExact(text, table, |table|, kw);
      assert table[..|table|] == table;
    }
  }

  /**
   * The inner counting loop of the extractor: how many keywords of `kwlist`
   * occur in `text`, each one found being added to `foundSkills`.
   */
  method CountHits(text: string, kwlist: seq<string>, foundSkills: set<string>)
    returns (count: nat, found: set<string>)
    ensures count == |Hits(text, kwlist)|
    ensures found == foundSkills + Elements(Hits(text, kwlist))
  {
    count := 0;
    found := foundSkills;
    var k := 0;
    while k < |kwlist|
      invariant 0 <= k <= |kwlist|
      invariant count == |Hits(text, kwlist[..k])|
      invariant found == foundSkills + Elements(Hits(text, kwlist[..k]))
    {
      HitsStep(text, kwlist, k);
      if Contains(text, kwlist[k]) {
        ElementsAppend(Hits(text, kwlist[..k]), [kwlist[k]]);
        assert Elements([kwlist[k]]) == {kwlist[k]};
        count := count + 1;
        found := found + {kwlist[k]};
      } else {
        assert Hits(text, kwlist[..k]) + [] == Hits(text, kwlist[..k]);
      }
      k := k + 1;
    }
    assert kwlist[..k] == kwlist;
  }

  /**
   * The outer counting loop of the extractor, over the keyword lists of
   * `table`: each list's number of keywords found in `text`, and every
   * keyword found.
   */
  method ScoreRoles(text: string, table: seq<seq<string>>) returns (scores: seq<nat>, foundSkills: set<string>)
    ensures |scores| == |table|
    ensures forall j :: 0 <= j < |table| ==> scores[j] == |Hits(text, table[j])|
    ensures forall kw :: kw in foundSkills <==> InTable(kw, table) && IsSubstring(kw, text)
  {
    scores := [];
    foundSkills := {};
    var i := 0;
    while i < |table|
      invariant 0 <= i <= |table|
      invariant scores == ScoresUpTo(text, table, i)
      invariant foundSkills == SkillsUpTo(text, table, i)
    {
      var count;
      count, foundSkills := CountHits(text, table[i], foundSkills);
      scores := scores + [count];
      i := i + 1;
    }
    ScoresUpToExact(text, table, i);
    SkillsOfTable(text, table);
  }

  /**
   * `extract_profile_from_resume`: `None` for an empty resume, otherwise
   * the profile described above.
   */
  method ExtractProfile(resumeText: string) returns (r: Option<Profile>)
    ensures r.None? <==> resumeText == []
    ensures r.Some? ==> Describes(r.value, resumeText)
  {
    if resumeText == [] {
      return None;
    }
    var text := Lower(resumeText);
    var scores, foundSkills := ScoreRoles(text, KeywordTable);
    assert scores == Scores(text);

    var best := FirstArgMax(scores);
    var bestRole := Roles[best];
    if scores[best] == 0 {
      bestRole := DataAnalyst;
    }

    var exp := 1;
    if Contains(text, "senior") || Contains(text, "5+") || Contains(text, "5 years") {
      exp := 6;
    } else if Contains(text, "lead") || Contains(text, "3+") || Contains(text, "3 years") {
      exp := 4;
    } else if Contains(text, "junior") || Contains(text, "1+") || Contains(text, "1 year") {
      exp := 2;
    }
    var seniority := if exp >= 5 then Senior else if exp >= 3 then MidLevel else Junior;

    var skills := SortStrings(foundSkills);
    r := Some(Profile(bestRole, exp, skills, seniority, Preview(resumeText)));
  }

  // ---------------------------------------------------------------------
  // Properties of the extracted profile

  /** Two profiles that both describe the same resume are equal: the extractor's result is determined. */
  lemma DescribesUnique(p: Profile, q: Profile, resumeText: string)
    requires Describes(p, resumeText) && Describes(q, resumeText)
    ensures p == q
  {
    SortedUnique(p.skills, q.skills);
  }

  /** The skill list holds every matched keyword exactly once, in ascending order. */
  lemma SkillsOfProfile(p: Profile, resumeText: string)
    requires Describes(p, resumeText)
    ensures forall i, j :: 0 <= i < j < |p.skills| ==> p.skills[i] != p.skills[j]
    ensures |p.skills| == |Elements(p.skills)|
  {
    SortedLength(p.skills);
    forall i, j | 0 <= i < j < |p.skills| ensures p.skills[i] != p.skills[j] {
      LexLessIrreflexive(p.skills[i]);
    }
  }

  /** "pandas" is on the Data Analyst list and on the Data Scientist list. */
  lemma PandasOnTwoLists()
    ensures "pandas" in Keywords(DataAnalyst) && "pandas" in Keywords(DataScientist)
    ensures IsKeyword("pandas")
  {
    assert Keywords(DataAnalyst)[4] == "pandas";
    assert Keywords(DataScientist)[7] == "pandas";
  }

  /**
   * A keyword on two role lists ("pandas" is on the Data Analyst and the
   * Data Scientist lists) is listed once among the skills when it occurs.
   */
  lemma SharedKeywordListedOnce(p: Profile, resumeText: string)
    requires Describes(p, resumeText)
    requires IsSubstring("pandas", Lower(resumeText))
    ensures "pandas" in p.skills
    ensures forall i, j :: 0 <= i < |p.skills| && 0 <= j < |p.skills| && p.skills[i] == "pandas" && p.skills[j] == "pandas" ==> i == j
  {
    PandasOnTwoLists();
    SkillsOfProfile(p, resumeText);
  }

  /** `s[i]` is the first maximum of `s`. */
  ghost predicate FirstMaximal(s: seq<nat>, i: int)
  {
    && 0 <= i < |s|
    && (forall j :: 0 <= j < |s| ==> s[j] <= s[i])
    && (forall j :: 0 <= j < i ==> s[j] < s[i])
  }

  /** Reference rule for the role: Data Analyst when all scores are zero, else the first maximum. */
  ghost predicate Chosen(s: seq<nat>, r: Role)
    requires |s| == |Roles|
  {
    if forall j :: 0 <= j < |s| ==> s[j] == 0 then r == DataAnalyst
    else FirstMaximal(s, r.Index())
  }

  lemma FirstMaximalUnique(s: seq<nat>, i: int, k: int)
    requires FirstMaximal(s, i) && FirstMaximal(s, k)
    ensures i == k
  {
    assert s[k] <= s[i] && s[i] <= s[k];
    if i < k {
      assert false;
    } else if k < i {
      assert false;
    }
  }

  /** The role choice agrees with the reference rule, in both directions. */
  lemma ChooseRoleCorrect(s: seq<nat>, r: Role)
    requires |s| == |Roles|
    ensures ChooseRole(s) == r <==> Chosen(s, r)
  {
    var b := FirstArgMax(s);
    assert FirstMaximal(s, b);
    assert Roles[b].Index() == b;
    if Chosen(s, r) && !(forall j :: 0 <= j < |s| ==> s[j] == 0) {
      FirstMaximalUnique(s, b, r.Index());
    }
  }

  /** What the choice guarantees about any five scores. */
  lemma ChoiceProperties(s: seq<nat>)
    requires |s| == |Roles|
    ensures forall j :: 0 <= j < |s| ==> s[j] <= s[ChooseRole(s).Index()]
    ensures s[ChooseRole(s).Index()] > 0 ==>
      forall j :: 0 <= j < ChooseRole(s).Index() ==> s[j] < s[ChooseRole(s).Index()]
    ensures (forall j :: 0 <= j < |s| ==> s[j] == 0) ==> ChooseRole(s) == DataAnalyst
  {
    ChooseRoleCorrect(s, ChooseRole(s));
  }

  /** The score of each role, as the extractor's scores list holds it. */
  lemma ScoresByRole(text: string)
    ensures var s := Scores(text);
      && s[0] == KeywordCount(text, SoftwareEngineer) && s[1] == KeywordCount(text, DataAnalyst)
      && s[2] == KeywordCount(text, DataScientist) && s[3] == KeywordCount(text, ProductManager)
      && s[4] == KeywordCount(text, DevOpsEngineer)
  {
    var s := Scores(text);
    assert s[SoftwareEngineer.Index()] == KeywordCount(text, SoftwareEngineer);
    assert s[DataAnalyst.Index()] == KeywordCount(text, DataAnalyst);
    assert s[DataScientist.Index()] == KeywordCount(text, DataScientist);
    assert s[ProductManager.Index()] == KeywordCount(text, ProductManager);
    assert s[DevOpsEngineer.Index()] == KeywordCount(text, DevOpsEngineer);
  }

  /** The reported role has the highest keyword count. */
  lemma RoleHasMostHits(text: string)
    ensures forall r: Role :: KeywordCount(text, r) <= KeywordCount(text, RoleOf(text))
  {
    ChoiceProperties(Scores(text));
  }

  /** When the reported role's count is not zero, every role declared before it has strictly fewer hits. */
  lemma EarlierRolesHaveFewerHits(text: string)
    ensures KeywordCount(text, RoleOf(text)) > 0 ==>
      forall r: Role :: r.Index() < RoleOf(text).Index() ==> KeywordCount(text, r) < KeywordCount(text, RoleOf(text))
  {
    ChoiceProperties(Scores(text));
  }

  /** When no keyword of any role occurs, the role is Data Analyst. */
  lemma NoHitsGiveAnalyst(text: string)
    ensures (forall r: Role :: KeywordCount(text, r) == 0) ==> RoleOf(text) == DataAnalyst
  {
    var s := Scores(text);
    ChoiceProperties(s);
    if forall r: Role :: KeywordCount(text, r) == 0 {
      ScoresByRole(text);
      assert KeywordCount(text, SoftwareEngineer) == 0 && KeywordCount(text, DataAnalyst) == 0;
      assert KeywordCount(text, DataScientist) == 0 && KeywordCount(text, ProductManager) == 0;
      assert KeywordCount(text, DevOpsEngineer) == 0;
    }
  }

  /** When only one role's keywords occur, that role is reported. */
  lemma SoleRole(text: string, r: Role)
    requires KeywordCount(text, r) > 0
    requires forall q: Role :: q != r ==> KeywordCount(text, q) == 0
    ensures RoleOf(text) == r
  {
    RoleHasMostHits(text);
  }

  /**
   * A tie between non-zero counts never goes to the later-declared role, and
   * when the tie is at the maximum the role reported is declared no later
   * than the earlier of the two, whether or not that is Data Analyst.
   */
  lemma TieGoesToFirstDeclared(s: seq<nat>, i: nat, j: nat)
    requires |s| == |Roles| && i < j < |s| && s[i] == s[j] > 0
    ensures ChooseRole(s) != Roles[j]
    ensures s[j] == s[ChooseRole(s).Index()] ==> ChooseRole(s).Index() <= i
  {
    ChoiceProperties(s);
  }

  /** Concrete ties: Software Engineer wins over Data Analyst, Data Analyst over Data Scientist. */
  lemma TieExamples()
    ensures ChooseRole([1, 1, 0, 0, 0]) == SoftwareEngineer
    ensures ChooseRole([0, 2, 2, 0, 0]) == DataAnalyst
    ensures ChooseRole([0, 0, 0, 0, 0]) == DataAnalyst
  {
    TieGoesToFirstDeclared([1, 1, 0, 0, 0], 0, 1);
    TieGoesToFirstDeclared([0, 2, 2, 0, 0], 1, 2);
    ChoiceProperties([0, 0, 0, 0, 0]);
  }

  /** The experience estimate is one of four values, fixed by the first cue bucket that occurs. */
  lemma ExperienceBuckets(text: string)
    ensures ExperienceYears(text) in {6, 4, 2, 1}
    ensures ExperienceYears(text) == 6 <==>
      IsSubstring("senior", text) || IsSubstring("5+", text) || IsSubstring("5 years", text)
    ensures ExperienceYears(text) == 4 <==>
      !SeniorCue(text) && (IsSubstring("lead", text) || IsSubstring("3+", text) || IsSubstring("3 years", text))
    ensures ExperienceYears(text) == 2 <==>
      !SeniorCue(text) && !LeadCue(text) && (IsSubstring("junior", text) || IsSubstring("1+", text) || IsSubstring("1 year", text))
    ensures ExperienceYears(text) == 1 <==> !SeniorCue(text) && !LeadCue(text) && !JuniorCue(text)
  {
  }

  /** Seniority thresholds: Senior from 5 years, Mid-level from 3, Junior below. */
  lemma SeniorityThresholds(exp: int)
    ensures SeniorityOf(exp) == Senior <==> exp >= 5
    ensures SeniorityOf(exp) == MidLevel <==> 3 <= exp < 5
    ensures SeniorityOf(exp) == Junior <==> exp < 3
  {
  }

  /** On the extracted profile the seniority follows the cue bucket: 6 is Senior, 4 Mid-level, 2 and 1 Junior. */
  lemma SeniorityOfProfile(p: Profile, resumeText: string)
    requires Describes(p, resumeText)
    ensures p.seniority == Senior <==> p.experienceYears == 6
    ensures p.seniority == MidLevel <==> p.experienceYears == 4
    ensures p.seniority == Junior <==> p.experienceYears in {1, 2}
  {
    ExperienceBuckets(Lower(resumeText));
  }
}
