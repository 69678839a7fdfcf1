/**
 * Follow-up emails: one of three fixed templates, chosen by the exact
 * email type, with the name, role, seniority and topic substituted in.
 */
module Email {
  import opened Wrappers
  import opened Text
  import opened ProfileExtractor

  datatype Template = PostExit | NextDay | FinalReminder

  /** The two email types with their own template; every other type gets the final reminder. */
  const PostExitType: string := "2 Hours Post-Exit"
  const NextDayType: string := "24 Hours Later"

  /** Template selection: exact string comparison, with a catch-all. */
  function TemplateFor(emailType: string): (t: Template)
    ensures t == PostExit <==> emailType == PostExitType
    ensures t == NextDay <==> emailType == NextDayType
    ensures t == FinalReminder <==> emailType != PostExitType && emailType != NextDayType
  {
    if emailType == PostExitType then PostExit
    else if emailType == NextDayType then NextDay
    else FinalReminder
  }

  /** The dict `generate_personalized_email` returns. */
  datatype Email = Email(subject: string, content: string)

  /** The name the email uses: the dict's, or "[Name]" when the key is missing. */
  function NameOr(d: ProfileDict): string
  {
    d.name.GetOr("[Name]")
  }


  /** The seniority the email uses: the dict's, or the empty string when the key is missing. */
  function EmailSeniorityOr(d: ProfileDict): string
  {
    d.seniority.GetOr("")
  }

  /** `content` opens with the greeting to `name`. */
  predicate Greets(content: string, name: string)
  {
    var g := Greeting(name);
    |g| <= |content| && content[..|g|] == g
  }

  /** The first line of every email, followed by a blank line. */
  function Greeting(name: string): string
  {
    "Hi " + name + ",\n\n"
  }

  function Subject(t: Template, topic: string): string
  {
    match t
    case PostExit => "That moment from today's " + topic + " \U{2014} don't let it fade"
    case NextDay => "Your peers are already advancing" + " \U{2014} a reminder from Scaler AI"
    case FinalReminder => "A note from your future self" + " \U{2014} keep building"
  }

  /** The text after the greeting: each template's text with the role substituted in once. */
  function Body(t: Template, topic: string, role: string, seniority: string): string
  {
    match t
    case PostExit => PostExitLead(topic, seniority) + role + PostExitRest
    case NextDay => NextDayLead(role, seniority) + role + NextDayRest
    case FinalReminder => FinalLead + role + FinalRest
  }

  function PostExitLead(topic: string, seniority: string): string
  {
    "I noticed you attended the " + topic + " masterclass. As a " + seniority + " "
  }

  const PostExitRest: string :=
    ", now is the perfect time to convert that learning spark into a measurable skill.\n\n"
    + "Quick wins for you:\n"
    + "\U{2022} Build a dashboard to demonstrate one business metric in 1 week.\n"
    + "\U{2022} Use a small ML model to predict the next 30-day trend for a key KPI.\n\n"
    + "Your exclusive 40% discount is still available for a short time.\n\n"
    + "[CLAIM 40% OFF]\n\n"
    + "Best,\nThe Scaler AI Team\n"

  /** The next-day text names the role twice: lower-cased in the first sentence, as given in the second. */
  function NextDayLead(role: string, seniority: string): string
  {
    "Yesterday's masterclass created momentum. Many " + Lower(role)
    + "s like you have already started the challenge and secured priority access.\n\n"
    + "We saved a spot with a discount for " + seniority + " "
  }

  const NextDayRest: string :=
    "s who take action.\n\n"
    + "[SECURE YOUR SPOT]\n\n"
    + "\U{2014} Scaler AI"

  const FinalLead: string :=
    "Two weeks from now you'll be glad you acted. As a "

  const FinalRest: string :=
    ", this program helps you move from analysis to impact.\n\n"
    + "[ENROLL NOW \U{2014} FINAL REMINDER]\n\n"
    + "\U{2014} The Scaler Team"

  /** `generate_personalized_email`. */
  function GeneratePersonalizedEmail(profile: ProfileDict, topic: string, emailType: string): (r: Email)
    ensures r.subject == Subject(TemplateFor(emailType), topic)
    ensures r.content == Greeting(NameOr(profile))
      + Body(TemplateFor(emailType), topic, profile.RoleOr(), EmailSeniorityOr(profile))
    ensures Greets(r.content, NameOr(profile))
  {
    var t := TemplateFor(emailType);
    var g := Greeting(NameOr(profile));
    var content := g + Body(t, topic, profile.RoleOr(), EmailSeniorityOr(profile));
    assert content[..|g|] == g;
    Email(Subject(t, topic), content)
  }

  /** The first letter of each subject. */
  function Initial(t: Template): char
  {
    match t
    case PostExit => 'T'
    case NextDay => 'Y'
    case FinalReminder => 'A'
  }

  lemma SubjectInitial(t: Template, topic: string)
    ensures |Subject(t, topic)| > 0 && Subject(t, topic)[0] == Initial(t)
  {
    match t
    case PostExit =>
      assert Subject(t, topic) == "That moment from today's " + (topic + " \U{2014} don't let it fade");
    case NextDay =>
    case FinalReminder =>
  }

  /** Every subject starts differently, so the subject tells which template was used, whatever the topic. */
  lemma SubjectIdentifiesTemplate(t1: Template, t2: Template, topic1: string, topic2: string)
    requires t1 != t2
    ensures Subject(t1, topic1) != Subject(t2, topic2)
  {
    SubjectInitial(t1, topic1);
    SubjectInitial(t2, topic2);
  }

  /** Email types that select different templates give emails with different subjects, whatever the topics. */
  lemma TypeDecidesSubject(d: ProfileDict, topic1: string, topic2: string, type1: string, type2: string)
    requires TemplateFor(type1) != TemplateFor(type2)
    ensures GeneratePersonalizedEmail(d, topic1, type1).subject != GeneratePersonalizedEmail(d, topic2, type2).subject
  {
    SubjectIdentifiesTemplate(TemplateFor(type1), TemplateFor(type2), topic1, topic2);
  }

  /** Every type other than the two named ones gives the same email. */
  lemma FallbackIsUniform(d: ProfileDict, topic: string, type1: string, type2: string)
    requires type1 != PostExitType && type1 != NextDayType
    requires type2 != PostExitType && type2 != NextDayType
    ensures GeneratePersonalizedEmail(d, topic, type1) == GeneratePersonalizedEmail(d, topic, type2)
  {
  }

  /** Each template's body names the role. */
  lemma BodyNamesRole(t: Template, topic: string, role: string, seniority: string)
    ensures IsSubstring(role, Body(t, topic, role, seniority))
  {
    match t {
      case PostExit => SubstringOfConcat(PostExitLead(topic, seniority), role, PostExitRest);
      case NextDay => SubstringOfConcat(NextDayLead(role, seniority), role, NextDayRest);
      case FinalReminder => SubstringOfConcat(FinalLead, role, FinalRest);
    }
  }

  /** The email names the recipient's role, whichever template is used. */
  lemma RoleIsNamed(d: ProfileDict, topic: string, emailType: string)
    ensures IsSubstring(d.RoleOr(), GeneratePersonalizedEmail(d, topic, emailType).content)
  {
    var role := d.RoleOr();
    var body := Body(TemplateFor(emailType), topic, role, EmailSeniorityOr(d));
    var g := Greeting(NameOr(d));
    BodyNamesRole(TemplateFor(emailType), topic, role, EmailSeniorityOr(d));
    SubstringWidens(role, g, body, "");
    assert g + body + "" == GeneratePersonalizedEmail(d, topic, emailType).content;
  }

  /** A dict without a name or a role gets "[Name]" in the greeting and "Professional" as the role. */
  lemma MissingKeysDefault(d: ProfileDict, topic: string, emailType: string)
    requires d.name.None? && d.role.None?
    ensures var e := GeneratePersonalizedEmail(d, topic, emailType);
      Greets(e.content, "[Name]") && IsSubstring("Professional", e.content)
  {
    RoleIsNamed(d, topic, emailType);
  }

  /**
   * Only the post-exit email mentions the topic, in its subject and its
   * body; the other two are the same for every topic.
   */
  lemma TopicOnlyPostExit(d: ProfileDict, topic1: string, topic2: string, emailType: string)
    ensures emailType != PostExitType ==>
      GeneratePersonalizedEmail(d, topic1, emailType) == GeneratePersonalizedEmail(d, topic2, emailType)
    ensures emailType == PostExitType ==>
      IsSubstring(topic1, GeneratePersonalizedEmail(d, topic1, emailType).subject)
  {
    if emailType == PostExitType {
      SubstringOfConcat("That moment from today's ", topic1, " \U{2014} don't let it fade");
    }
  }

  /**
   * The email for an extracted profile, once the page has attached a name:
   * it greets that name and names the detected role.
   */
  lemma ResumeToEmail(resumeText: string, p: Profile, name: string, topic: string, emailType: string)
    requires Describes(p, resumeText)
    ensures var e := GeneratePersonalizedEmail(AsDict(p).(name := Some(name)), topic, emailType);
      Greets(e.content, name) && IsSubstring(p.role.Name(), e.content)
  {
    var d := AsDict(p).(name := Some(name));
    assert NameOr(d) == name && d.RoleOr() == p.role.Name();
    RoleIsNamed(d, topic, emailType);
  }
}
