/**
 * Personalised pop-up nuggets: a fixed-shape record of marketing lines
 * filled in from the profile dict and the masterclass topic, with one
 * override for Data Analysts.
 */
module Nuggets {
  import opened Wrappers
  import opened Text
  import opened ProfileExtractor

  /** The topic the pages pass, which is also the parameter's default. */
  const DefaultTopic: string := "AI & Machine Learning"

  /** The separator between the parts of the headline. */
  const Dot: string := " \U{2022} "

  const Nugget2: string :=
    "Focus on project-based learning \U{2014} employers value delivered impact (dashboards, pipelines, ML features)."
  const Cta: string :=
    "Join the 30-min challenge and earn up to 40% off our AI course \U{2014} limited spots!"
  const AnalystNugget1: string :=
    "AI helps Data Analysts automate repetitive analysis and build predictive models \U{2014} learn how in the masterclass."
  const AnalystTip: string :=
    "Try combining SQL + Python + visualization to demonstrate quick wins to stakeholders."

  /** The keys of the result dict; `Name` is the key as the dict spells it. */
  datatype Key = Headline | Nugget1Key | Nugget2Key | CtaKey | ExtraTip
  {
    function Name(): string
    {
      match this
      case Headline => "headline"
      case Nugget1Key => "nugget_1"
      case Nugget2Key => "nugget_2"
      case CtaKey => "cta"
      case ExtraTip => "extra_tip"
    }
  }

  /** The keys every non-empty result has. */
  const CoreKeys: set<Key> := {Headline, Nugget1Key, Nugget2Key, CtaKey}

  /** `skills[:5]`. */
  function ShownSkills(skills: seq<string>): (r: seq<string>)
    ensures |r| == if |skills| < 5 then |skills| else 5
    ensures r == skills[..|r|]
  {
    if |skills| <= 5 then skills else skills[..5]
  }

  /** The skills part of the headline. */
  function SkillsLine(shown: seq<string>): string
  {
    if shown == [] then "Skills not listed" else Join(", ", shown)
  }

  function Nugget1(role: string, topic: string): string
  {
    "As a " + role + ", mastering " + topic + " can help you build production-ready analytics & models faster."
  }

  function SeniorityOr(d: ProfileDict): string
  {
    d.seniority.GetOr("Junior")
  }

  function SkillsOr(d: ProfileDict): seq<string>
  {
    d.skills.GetOr([])
  }

  /** `generate_personalized_nuggets`: empty for a missing or empty profile. */
  function GeneratePersonalizedNuggets(profile: Option<ProfileDict>, topic: string): (r: map<Key, string>)
    ensures profile.None? || profile.value.IsEmpty() ==> r == map[]
    ensures profile.Some? && !profile.value.IsEmpty() ==>
      r.Keys == CoreKeys + (if profile.value.RoleOr() == "Data Analyst" then {ExtraTip} else {})
  {
    if profile.None? || profile.value.IsEmpty() then map[]
    else
      var role := profile.value.RoleOr();
      var seniority := SeniorityOr(profile.value);
      var skills := ShownSkills(SkillsOr(profile.value));
      var nuggets := map[
        Headline := role + Dot + seniority + Dot + SkillsLine(skills),
        Nugget1Key := Nugget1(role, topic),
        Nugget2Key := Nugget2,
        CtaKey := Cta];
      if role == "Data Analyst" then
        nuggets[Nugget1Key := AnalystNugget1][ExtraTip := AnalystTip]
      else
        nuggets
  }

  /**
   * The skills line names the first five skills (at most) in order, with one
   * comma between each, or says "Skills not listed" when there are none.
   */
  lemma SkillsLineLists(skills: seq<string>)
    requires forall i :: 0 <= i < |skills| ==> ',' !in skills[i]
    ensures var n := if |skills| < 5 then |skills| else 5;
      var line := SkillsLine(ShownSkills(skills));
      && (n == 0 ==> line == "Skills not listed")
      && (n > 0 ==> CountChar(line, ',') == n - 1)
      && (forall i :: 0 <= i < n ==> IsSubstring(skills[i], line))
  {
    var shown := ShownSkills(skills);
    if shown != [] {
      JoinCommas(shown);
    }
  }

  /** The headline is "role • seniority • " followed by the skills line, with the dict's defaults. */
  lemma HeadlineText(d: ProfileDict, topic: string)
    requires !d.IsEmpty()
    ensures GeneratePersonalizedNuggets(Some(d), topic)[Headline]
      == d.RoleOr() + Dot + SeniorityOr(d) + Dot + SkillsLine(ShownSkills(SkillsOr(d)))
  {
  }

  /** The nuggets depend on the profile only through its role, its seniority and its first five skills. */
  lemma NuggetsDependOnFirstFive(d: ProfileDict, e: ProfileDict, topic: string)
    requires !d.IsEmpty() && !e.IsEmpty()
    requires d.RoleOr() == e.RoleOr() && SeniorityOr(d) == SeniorityOr(e)
    requires ShownSkills(SkillsOr(d)) == ShownSkills(SkillsOr(e))
    ensures GeneratePersonalizedNuggets(Some(d), topic) == GeneratePersonalizedNuggets(Some(e), topic)
  {
  }

  /** "nugget_2" and "cta" are the same for every profile and every topic. */
  lemma FixedLines(d: ProfileDict, topic: string)
    requires !d.IsEmpty()
    ensures var r := GeneratePersonalizedNuggets(Some(d), topic);
      r[Nugget2Key] == Nugget2 && r[CtaKey] == Cta
  {
  }

  /** Changing the topic changes only "nugget_1". */
  lemma TopicOnlyInNugget1(d: ProfileDict, t1: string, t2: string)
    requires !d.IsEmpty()
    ensures var r1 := GeneratePersonalizedNuggets(Some(d), t1);
      var r2 := GeneratePersonalizedNuggets(Some(d), t2);
      r1.Keys == r2.Keys && forall k :: k in r1 && k != Nugget1Key ==> r1[k] == r2[k]
  {
    var r1 := GeneratePersonalizedNuggets(Some(d), t1);
    var r2 := GeneratePersonalizedNuggets(Some(d), t2);
    if d.RoleOr() == "Data Analyst" {
      AnalystIgnoresTopic(d, t1, t2);
    } else {
      assert r2 == r1[Nugget1Key := Nugget1(d.RoleOr(), t2)];
    }
  }

  /**
   * Called without a topic, as the pages do, the nuggets of every role but
   * Data Analyst name the default topic in "nugget_1".
   */
  lemma DefaultTopicNamed(d: ProfileDict)
    requires !d.IsEmpty() && d.RoleOr() != "Data Analyst"
    ensures IsSubstring(DefaultTopic, GeneratePersonalizedNuggets(Some(d), DefaultTopic)[Nugget1Key])
  {
    SubstringOfConcat("As a " + d.RoleOr() + ", mastering ", DefaultTopic,
      " can help you build production-ready analytics & models faster.");
  }

  /** For a Data Analyst the nuggets do not depend on the topic at all. */
  lemma AnalystIgnoresTopic(d: ProfileDict, t1: string, t2: string)
    requires !d.IsEmpty() && d.RoleOr() == "Data Analyst"
    ensures GeneratePersonalizedNuggets(Some(d), t1) == GeneratePersonalizedNuggets(Some(d), t2)
  {
  }

  /** "extra_tip" is present exactly for a Data Analyst, and then "nugget_1" is the analyst text. */
  lemma AnalystOverride(d: ProfileDict, topic: string)
    requires !d.IsEmpty()
    ensures var r := GeneratePersonalizedNuggets(Some(d), topic);
      && (ExtraTip in r <==> d.RoleOr() == "Data Analyst")
      && (d.RoleOr() == "Data Analyst" ==> r[Nugget1Key] == AnalystNugget1 && r[ExtraTip] == AnalystTip)
      && (d.RoleOr() != "Data Analyst" ==> r[Nugget1Key] == Nugget1(d.RoleOr(), topic))
  {
  }

  /**
   * From resume to nuggets: no resume gives no nuggets; an extracted
   * profile gives a headline whose skills line names the first five
   * matched keywords, one comma between each.
   */
  lemma ResumeToNuggets(resumeText: string, p: Profile, topic: string)
    requires Describes(p, resumeText)
    ensures GeneratePersonalizedNuggets(None, topic) == map[]
    ensures var d := AsDict(p);
      var n := if |p.skills| < 5 then |p.skills| else 5;
      var line := SkillsLine(ShownSkills(p.skills));
      && GeneratePersonalizedNuggets(Some(d), topic)[Headline]
           == p.role.Name() + Dot + p.seniority.Name() + Dot + line
      && (n > 0 ==> CountChar(line, ',') == n - 1)
      && (forall i :: 0 <= i < n ==> IsSubstring(p.skills[i], line))
  {
    forall i | 0 <= i < |p.skills| ensures ',' !in p.skills[i] {
      KeywordsCommaFree(p.skills[i]);
    }
    SkillsLineLists(p.skills);
    HeadlineText(AsDict(p), topic);
  }
}
