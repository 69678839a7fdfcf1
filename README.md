# Scaler AI masterclass helpers in Dafny

A model of the four helper functions behind the Scaler AI masterclass
conversion app (`scalar.py`), with proofs of what they promise:

- **Resume profile extractor** (`extract_profile_from_resume`): lower-cases
  the resume, counts keyword hits per role over five fixed keyword lists,
  picks the role with the most hits (Data Analyst when nothing matched),
  estimates experience from cue phrases, derives seniority, and returns the
  sorted set of matched keywords and a 100-character preview. Modelled in
  `profile.dfy` as the method `ExtractProfile`, proved against the
  specification predicate `Describes`. Its two nested counting loops are
  the methods `CountHits` (inner) and `ScoreRoles` (outer), proved against
  the keyword filter `Hits` and the table membership `InTable`. Substring search
  and lower-casing are in `text.dfy`; Python's string order and
  `sorted(list(set))` are in `ordering.dfy`.
- **Pop-up nuggets** (`generate_personalized_nuggets`): a map of marketing
  lines built from the profile dict, with a Data Analyst override
  (`nuggets.dfy`).
- **Discount tiers** (`discount_by_score`): a threshold lookup on the
  challenge score (`discount.dfy`).
- **Follow-up email** (`generate_personalized_email`): one of three
  templates chosen by exact match on the email type (`email.dfy`).

The profile dict that the page code passes around is the datatype
`ProfileDict`, one `Option` field per key the helpers read or write; a dict
is falsy exactly when every field is `None`. `AsDict` turns an extracted
`Profile` into that dict. The nuggets dict is a `map` whose keys are the
enumeration `Nuggets.Key`; `Key.Name` gives each key's text.

## Model

| member | source | states |
|---|---|---|
| ProfileExtractor.ExtractProfile | scalar.py:118-160 | returns no profile exactly when the resume text is empty; otherwise a profile that satisfies `Describes`: the role is `RoleOf`, the experience is `ExperienceYears`, the seniority follows from it, the skills are strictly ascending and are exactly the keywords of any list that occur in the lower-cased text, and the preview is `Preview` |
| ProfileExtractor.ScoreRoles | scalar.py:132-140 | the outer loop: one score per keyword list, each the number of that list's keywords occurring in the text, and the found-skill set is exactly the keywords of some list that occur in the text |
| ProfileExtractor.CountHits | scalar.py:135-139 | the inner loop: the count is the number of the list's keywords occurring in the text, and the skill set grows by exactly those keywords |
| ProfileExtractor.Hits | scalar.py:136-139 | the hits of a keyword list are the keywords of the list that occur in the text, at most as many as the list holds |
| ProfileExtractor.HitsExact | scalar.py:136-139 | a keyword is among the hits iff it is on the list and occurs in the text |
| ProfileExtractor.HitsStep | scalar.py:136-139 | one more keyword of the list adds it to the hits exactly when it occurs |
| ProfileExtractor.Scores | scalar.py:132-140 | one score per role, in declaration order, each that role's keyword count |
| ProfileExtractor.ScoresUpToExact | scalar.py:134-140 | after the first n lists the scores list has n entries, each that list's hit count |
| ProfileExtractor.InTableStep | scalar.py:134-139 | the first n keyword lists hold a keyword iff the first n-1 do or the n-th does |
| ProfileExtractor.SkillsUpToExact | scalar.py:133-139 | after the first n lists, a keyword is in the found set iff it is on one of those lists and occurs in the text |
| ProfileExtractor.SkillsOfTable | scalar.py:133-139 | after all lists, a keyword is in the found set iff it is on some list and occurs in the text |
| Text.Contains | scalar.py:137 | Python's `kw in text`: true iff the keyword occurs at some position of the text |
| Text.Lower | scalar.py:124 | `lower()` on ASCII letters: same length, each upper-case letter mapped to its lower-case form, every other character kept |
| Text.LowerChar | scalar.py:124 | an upper-case ASCII letter moves 32 code points down to lower case; other characters are unchanged; the result is never upper-case |
| Text.LowerIdempotent | scalar.py:124 | lower-casing an already lower-cased text changes nothing |
| ProfileExtractor.FirstArgMax | scalar.py:142 | `max(scores, key=scores.get)`: an index holding the largest score, with every earlier index strictly smaller |
| ProfileExtractor.ChooseRole | scalar.py:142-144 | the role choice on a scores list: Data Analyst when the first maximum is zero, else the role at the first maximum; its meaning is stated by `ChooseRoleCorrect` and `ChoiceProperties` |
| ProfileExtractor.RoleOf | scalar.py:132-144 | the role reported for a lower-cased text: the choice on its keyword counts; its meaning is stated by `RoleHasMostHits`, `EarlierRolesHaveFewerHits` and `NoHitsGiveAnalyst` |
| ProfileExtractor.ChooseRoleCorrect | scalar.py:142-144 | the role choice is Data Analyst when every score is zero, and otherwise exactly the first role with the maximum score (which may be Data Analyst) |
| ProfileExtractor.FirstMaximalUnique | scalar.py:142 | there is only one first maximum, so the choice is determined |
| ProfileExtractor.ChoiceProperties | scalar.py:142-144 | the chosen role has the maximum score; if that score is non-zero, every earlier role scores strictly less; all zeros give Data Analyst |
| ProfileExtractor.ScoresByRole | scalar.py:132-140 | the scores list holds each role's keyword count at that role's position in declaration order |
| ProfileExtractor.RoleHasMostHits | scalar.py:134-144 | the reported role has the highest keyword count of all roles |
| ProfileExtractor.EarlierRolesHaveFewerHits | scalar.py:141-144 | when the reported role's count is non-zero, no earlier-declared role has as many hits |
| ProfileExtractor.NoHitsGiveAnalyst | scalar.py:143-144 | when no keyword of any role occurs, the role is Data Analyst |
| ProfileExtractor.SoleRole | scalar.py:134-144 | when only one role's keywords occur, that role is reported |
| ProfileExtractor.TieGoesToFirstDeclared | scalar.py:141-144 | for any scores, when two roles tie on a non-zero count the later-declared one is never chosen, and when the tie is at the maximum the chosen role is declared no later than the earlier of the two, Data Analyst or not |
| ProfileExtractor.TieExamples | scalar.py:141-144 | equal non-zero counts for Software Engineer and Data Analyst give Software Engineer; for Data Analyst and Data Scientist, Data Analyst; all zeros give Data Analyst |
| ProfileExtractor.ExperienceYears | scalar.py:146-152 | the experience estimate from the cue phrases; its buckets and their priority are stated by `ExperienceBuckets` |
| ProfileExtractor.SeniorityOf | scalar.py:153 | the seniority for a number of years; its thresholds are stated by `SeniorityThresholds` |
| ProfileExtractor.ExperienceBuckets | scalar.py:146-152 | experience is 6, 4, 2 or 1, chosen by the first bucket of cue phrases that occurs: senior/5+/5 years, then lead/3+/3 years, then junior/1+/1 year, else 1 |
| ProfileExtractor.SeniorityThresholds | scalar.py:153 | Senior iff at least 5 years, Mid-level iff 3 to under 5, Junior below 3 |
| ProfileExtractor.SeniorityOfProfile | scalar.py:146-153 | on an extracted profile, 6 years means Senior, 4 Mid-level, and 2 or 1 Junior, both ways |
| ProfileExtractor.Preview | scalar.py:159 | the first 100 characters with every newline turned into a space, then "..." exactly when the text is longer than 100; at most 103 characters and free of newlines |
| ProfileExtractor.SkillsOfProfile | scalar.py:157 | the extracted skills hold no duplicates, so there are as many skills as distinct matched keywords |
| ProfileExtractor.SharedKeywordListedOnce | scalar.py:133-139 | "pandas", on two role lists, is listed exactly once among the skills whenever it occurs in the text |
| ProfileExtractor.PandasOnTwoLists | scalar.py:127-128 | "pandas" is on both the Data Analyst and the Data Scientist list |
| ProfileExtractor.DescribesUnique | scalar.py:154-160 | two profiles that both describe the same resume are equal: the extractor's result is fully determined |
| ProfileExtractor.KeywordsCommaFree | scalar.py:125-131 | no keyword contains a comma |
| ProfileExtractor.ProfileDict.RoleOr | scalar.py:166 | `profile.get('role', 'Professional')`, read the same way by the nuggets and, at scalar.py:222, the emails; `Email.MissingKeysDefault` states the default |
| ProfileExtractor.AsDict | scalar.py:154-160 | the returned dict is non-empty (truthy) and has no name key |
| Ordering.SortStrings | scalar.py:157 | `sorted(list(s))`: strictly ascending, holding exactly the elements of the set |
| Ordering.Insert | scalar.py:157 | adding a string to a strictly ascending sequence keeps it strictly ascending and adds exactly that string |
| Ordering.SortedUnique | scalar.py:157 | a set has only one strictly ascending arrangement |
| Ordering.SortedLength | scalar.py:157 | a strictly ascending sequence has as many elements as its set |
| Ordering.LexLess | scalar.py:157 | Python's string `<`: the first differing code point decides, and a proper prefix comes first; it is a strict total order by the four lemmas below |
| Ordering.LexLessIrreflexive | scalar.py:157 | Python's string `<` is irreflexive |
| Ordering.LexLessTransitive | scalar.py:157 | Python's string `<` is transitive |
| Ordering.LexLessTotal | scalar.py:157 | any two distinct strings are ordered one way or the other |
| Ordering.LexLessAsymmetric | scalar.py:157 | Python's string `<` is asymmetric |
| Ordering.Elements | scalar.py:157 | the set of a sequence holds exactly its elements |
| Ordering.ElementsAppend | scalar.py:139 | the set of a concatenation is the union of the sets |
| Nuggets.GeneratePersonalizedNuggets | scalar.py:162-179 | a missing or empty profile gives the empty map; otherwise the keys are headline, nugget_1, nugget_2 and cta, plus extra_tip exactly for a Data Analyst |
| Nuggets.SeniorityOr | scalar.py:167 | `profile.get('seniority', 'Junior')`; `Nuggets.HeadlineText` states where it appears |
| Nuggets.SkillsOr | scalar.py:168 | `profile.get('skills', [])`; `Nuggets.HeadlineText` states where it appears |
| Nuggets.ShownSkills | scalar.py:168 | `skills[:5]`: the first five skills, or all of them when there are fewer |
| Nuggets.SkillsLine | scalar.py:170 | the skills part of the headline, "Skills not listed" for no skills; stated by `SkillsLineLists` |
| Text.Join | scalar.py:170 | `sep.join(parts)`: the parts with the separator between consecutive ones; `JoinCommas` states the comma count and that every part occurs |
| Nuggets.SkillsLineLists | scalar.py:170 | the skills line is "Skills not listed" when there are no skills, and otherwise names each of the first five skills with one comma between consecutive ones |
| Text.JoinCommas | scalar.py:170 | joining comma-free parts with ", " gives one comma fewer than there are parts, and every part occurs in the result |
| Text.ReplaceNewlines | scalar.py:159 | `replace('\n', ' ')`: same length, newlines become spaces, every other character kept |
| Nuggets.HeadlineText | scalar.py:166-170 | the headline is role, seniority and skills line joined by bullets, with "Professional", "Junior" and no skills for missing keys |
| Nuggets.NuggetsDependOnFirstFive | scalar.py:166-174 | two profiles with the same role, seniority and first five skills get the same nuggets |
| Nuggets.TopicOnlyInNugget1 | scalar.py:169-178 | changing the topic leaves the keys and every value except nugget_1 unchanged |
| Nuggets.FixedLines | scalar.py:172-173 | nugget_2 and cta are the same fixed lines for every profile and topic |
| Nuggets.DefaultTopicNamed | scalar.py:162-174 | called with the default topic "AI & Machine Learning", every role but Data Analyst gets a nugget_1 that names that topic |
| Nuggets.AnalystIgnoresTopic | scalar.py:176-178 | for a Data Analyst the nuggets do not depend on the topic at all |
| Nuggets.AnalystOverride | scalar.py:176-178 | extra_tip is present iff the role is Data Analyst, and then nugget_1 is the analyst text; otherwise nugget_1 names the role and topic |
| Nuggets.ResumeToNuggets | scalar.py:162-179 | no profile gives no nuggets; for an extracted profile the headline names the role, the seniority and the first five skills with one comma between each |
| Discount.TierOf | scalar.py:210-217 | the threshold lookup of the score's tier; its ranges are stated by `TierRanges` and its monotonicity by `SavingsMonotone` |
| Discount.DiscountByScore | scalar.py:208-217 | the result is the tier label and savings text of the score's tier |
| Discount.TierRanges | scalar.py:210-217 | 40% from 9.0, 30% from 8.0 to under 9.0, 20% from 7.0 to under 8.0, 15% below 7.0; lower bounds inclusive, and every score, out of range or not, gets a tier |
| Discount.SavingsMonotone | scalar.py:210-217 | a higher score never gets a smaller discount |
| Discount.LabelStatesSavings | scalar.py:211-217 | every tier label contains its savings text |
| Discount.SavingsIsPercent | scalar.py:211-217 | each savings text is the tier's percentage in decimal followed by "%" |
| Discount.SavingsAgreeWithLabel | scalar.py:210-217 | the savings text is the tier's percentage followed by "%", and the tier label states the same percentage |
| Discount.DiscountIdentifiesTier | scalar.py:210-217 | two scores get the same result iff they are in the same tier |
| Discount.Boundaries | scalar.py:210-217 | 9.0 gets 40%, 8.9999 gets 30%, 7.0 gets 20%, 6.9 gets 15% |
| Discount.BlankSolutionIsParticipant | scalar.py:208-217 | a score between 4.0 and 6.5, the range drawn for a blank solution, gets the 15% participant discount |
| Discount.AutoTestIsPaidTier | scalar.py:208-217 | a score between 7.0 and 9.5, the range of the quick auto-test, gets at least 20% |
| Email.TemplateFor | scalar.py:224-252 | exactly "2 Hours Post-Exit" selects the post-exit template, exactly "24 Hours Later" the next-day one, and every other string the final reminder |
| Email.NameOr | scalar.py:221 | `profile.get('name', '[Name]')`; `Email.MissingKeysDefault` states the default |
| Email.EmailSeniorityOr | scalar.py:223 | `profile.get('seniority', '')` |
| Email.Subject | scalar.py:225-253 | the three subjects, the post-exit one naming the topic; `SubjectInitial` and `SubjectIdentifiesTemplate` state that they tell the templates apart |
| Email.Body | scalar.py:226-260 | the three bodies after the greeting, each with the role substituted in; `BodyNamesRole` states that each names the role |
| Email.GeneratePersonalizedEmail | scalar.py:219-261 | the subject and body are those of the template that `TemplateFor` selects by exact match on the email type, with the dict's role and seniority (or their defaults) substituted; the content opens with "Hi", the name (or "[Name]"), a comma and a blank line |
| Email.TypeDecidesSubject | scalar.py:224-260 | two email types that select different templates give emails with different subjects, whatever the topics |
| Email.SubjectInitial | scalar.py:225-253 | each template's subject starts with its own letter |
| Email.SubjectIdentifiesTemplate | scalar.py:225-253 | different templates have different subjects, whatever the topic |
| Email.BodyNamesRole | scalar.py:228-256 | each of the three bodies names the role |
| Email.FallbackIsUniform | scalar.py:252-260 | every unrecognised email type gives the same email |
| Email.RoleIsNamed | scalar.py:222-259 | every template names the role (or "Professional") in the body |
| Email.MissingKeysDefault | scalar.py:221-222 | a dict without name and role greets "[Name]" and names "Professional" |
| Email.TopicOnlyPostExit | scalar.py:224-260 | only the post-exit email depends on the topic, and its subject names it |
| Email.ResumeToEmail | scalar.py:219-261 | for an extracted profile with a name attached, the email greets that name and names the detected role |

## Left out

- The Streamlit pages, navigation, session-state flags and CSS: user interface, not part of this model.
- Resume file upload and its UTF-8 decoding fallback: I/O.
- `assign_random_team` and the participant counter: they are driven by `random`.
- `simulate_scoring`: it is driven by `random.uniform` noise, a clamp to [0, 10] and float rounding. Its blank-input range (scalar.py:197) is the hypothesis of `Discount.BlankSolutionIsParticipant`. The quick auto-test's score (scalar.py:414), also page code and left out, is the hypothesis of `Discount.AutoTestIsPaidTier`.
- Text.Lower: models `str.lower()` on ASCII letters only. Python's full Unicode case mapping is library behaviour outside this model, so non-ASCII capitals stay as they are.
- Email.Body: the three bodies are reproduced, but the only body property proved is that the role is named. The next-day body writes the role lower-cased with ASCII `Lower`.
- Discount.TierOf: the score is an exact `real`. A double's value is a real number, and 9.0, 8.0 and 7.0 are exact in binary, so the comparisons agree. NaN is not modelled.
- ProfileDict: has only the six keys the helpers read or write. A key that is present but holds `None` is not distinguished from a missing key.
- ProfileExtractor.ExtractProfile: the `scores` dict keyed by role name is a sequence indexed in declaration order, which is the dict's insertion order.
- ProfileExtractor.CountHits: the inner loop is a separate method called once per keyword list. The set it adds to is passed in and returned, so the in-place update is modelled by value.
- The comment beside the role choice says ties default to Data Analyst. The code does that only when every count is zero, and the model follows the code: see `ProfileExtractor.TieGoesToFirstDeclared`.
