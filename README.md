# Prompt generator engine and SkillsLM parsers, modelled in Dafny

This project models the engine of the skill prompt generator. The engine turns a user's free-text request into an image, design or software prompt:

- **Intent.** It parses the request into an intent dict and classifies it (portrait, design, cross-domain, software).
- **Elements.** It decides which knowledge domains and categories to query. It scores and picks prompt elements from the element store, checks and repairs the chosen set for consistency (ethnicity against eye and hair colour, repeated categories), and composes the prompt while removing repeated concepts and blacklisted words.
- **Design variables.** It samples template variables and design variables (colours, borders, decorations). Each sampler keeps a history of at most 100 records and avoids the most recently used values.
- **Software prompts.** It fills software-engineering templates from a role and framework decision chain.
- **Element store.** The universal element library is held as tables: elements, categories and domains with cached element totals, tags with usage counts, element–tag links and learned source prompts. It supports searches, a clear, and a JSON export and import.

It also models the text handling of the SkillsLM shell:

- the argument vectors passed to `npx skills`;
- ANSI escape stripping: ESC Fe sequences and CSI control sequences, sections 5.3 and 5.4 of ECMA-48;
- the line scanners that read installed and available skills out of the command output;
- the update check;
- Markdown-to-Mermaid flowchart extraction;
- the skill card's reading of a skill's agents.

Modelling choices:

- **Modules.** Each module follows one class or file of the source. Code that loops or updates state is written as methods with loop invariants, proved against specification functions. Classes whose fields the source updates are Dafny classes:
  - `ElementStore.ElementDB`;
  - `VariableSampler.Sampler`;
  - `DesignVariables.DesignSampler`;
  - `YamlSampler.YamlVariableSampler`.
- **Scores** are `real`: the source only adds, subtracts, multiplies and divides small rationals.
- **Free-form Python dicts** are maps to a JSON-like `PyValue.Value`. These include intents, style contexts, YAML and JSON payloads. Dicts whose insertion order matters are association lists. `==` and list membership follow Python's equality (`PyValue.PyEq`): numbers compare by value, lists and dicts element by element.
- **SQL tables** are sequences of rows in table order. `ORDER BY … DESC` is a stable descending sort.
- **Randomness.** `random.choice` and `random.randint` are nondeterministic choices, so the contracts state where a sampled value comes from.
- **Errors** that Python raises on the modelled paths are `Result` errors named after the exception. These are `TypeError`, `ValueError`, `AttributeError` and `IndexError`.

Where the repository's documentation and its code differ, the model follows the code:

- In `parse_user_input` (core/cross_domain_generator.py:110-184) only the software task, language, framework and gender cues are matched case-insensitively; its other cues are matched on the request as typed. Elsewhere each matcher follows its own code.
- The repository's quirks are reproduced and stated as lemmas:
  - `compose_prompt` in simple mode fails;
  - `'javascript'` reads as Java;
  - the design bridge drops design and product elements;
  - the element sampler's recent values ignore the variable id;
  - an ethnicity missing from the hair table makes the repair fail;
  - with two YAML options a recent name can be picked again;
  - a software intent whose task is None raises TypeError.

## Model

| member | source | states |
|---|---|---|
| Knowledge.ExtractEthnicityName | skill-prompt-generator-main/intelligent_generator.py:736-747 | the result is the name unchanged or a canonical ethnicity; it has the same letters as the name up to case; a canonical ethnicity has both a typical-eye and a typical-hair entry |
| Knowledge.ExtractEthnicityCanonical | skill-prompt-generator-main/intelligent_generator.py:736-747 | a name gets a canonical spelling exactly when it equals a known ethnicity up to case, and then it gets that one; any other name comes back unchanged |
| Knowledge.MappingCanonical | skill-prompt-generator-main/intelligent_generator.py:738-746 | every key of the mapping is the lower-case form of its value, and every value has typical-eye and typical-hair entries |
| Knowledge.KnownIsMapped | skill-prompt-generator-main/intelligent_generator.py:738-746 | every ethnicity with a typical-hair entry is the mapping's value for its own lower-case form |
| Knowledge.FindElementByCategory | skill-prompt-generator-main/intelligent_generator.py:729-734 | nothing exactly when no element has the category; otherwise the first element in list order that has it |
| ElementLookup.GetElementByCategory | skill-prompt-generator-main/intelligent_generator.py:90-143 | a found element has the requested category and comes from a row of the domain; with a filter its name equals the filter ignoring case, and the three cases are stated: no LIKE hit gives nothing, a top LIKE hit named like the filter (ignoring case) is returned, otherwise the top exact-name row or nothing; without a filter nothing is found exactly when the category is empty, and the found row has the top score |
| ElementLookup.GetAllElementsByCategory | skill-prompt-generator-main/intelligent_generator.py:145-184 | exactly the elements of the matching rows, one per row, each of the requested category, best reusability first |
| ElementLookup.CandidatesProps | skill-prompt-generator-main/intelligent_generator.py:93-105 | the first query yields exactly the rows of the domain and category whose template or keywords match `%filter%` as a SQL LIKE pattern, best score first |
| ElementLookup.ExactCandidatesProps | skill-prompt-generator-main/intelligent_generator.py:113-122 | the fallback query yields exactly the rows of the domain and category with that exact name, best score first |
| ElementLookup.ExactNameNeedsLikeHit | skill-prompt-generator-main/intelligent_generator.py:107-126 | when no row's template or keywords match `%filter%` as a LIKE pattern, nothing is found, even if a row is named exactly like the filter |
| ElementLookup.LikeFits | skill-prompt-generator-main/intelligent_generator.py:101-103 | `text LIKE '%f%'` for a filter without `%` holds exactly when the filter fits the text at some position, each `_` standing for any one character and letters compared ignoring ASCII case |
| ElementLookup.LikePlain | skill-prompt-generator-main/intelligent_generator.py:101-103 | for a filter without wildcards the LIKE test is the case-folded substring test |
| ElementLookup.UnderscoreMatchesSpace | skill-prompt-generator-main/intelligent_generator.py:101-103 | the parser's `East_Asian` filter matches a template reading `East Asian skin`, because `_` is a wildcard |
| Relevance.CountMatches | skill-prompt-generator-main/intelligent_generator.py:397-401 | the loop counts the required keywords whose lower-cased text occurs in the element's text |
| Relevance.CalculateRelevance | skill-prompt-generator-main/intelligent_generator.py:375-406 | the relevance is the specified fraction and lies in [0, 1] |
| Relevance.MatchedCountBounds | skill-prompt-generator-main/intelligent_generator.py:397-404 | the count is at most the number of keywords; it equals that number iff every keyword hits and is 0 iff none does |
| Relevance.RelevanceRange | skill-prompt-generator-main/intelligent_generator.py:386-406 | 0.5 without keywords; otherwise in [0, 1], 1 exactly when every keyword occurs and 0 exactly when none does |
| Relevance.StyleRowsProps | skill-prompt-generator-main/intelligent_generator.py:412-424 | the query returns only rows with a non-empty template LIKE some keyword, best quality first, at most 30; a matching row is left out only when 30 rows at least as good fill the limit |
| Relevance.StyleCandidatesProps | skill-prompt-generator-main/intelligent_generator.py:426-456 | every candidate comes from a queried row with a non-empty template matching a keyword, outside the person-attribute categories, scored as relevance times reusability; conversely every queried row outside those categories becomes a candidate, and the candidates keep the query's order |
| Relevance.SearchStyleElementsProps | skill-prompt-generator-main/intelligent_generator.py:408-462 | the result holds ten candidates, or all of them when fewer, each taken no more often than it occurs, best final score first, each a valid candidate, and no candidate left out scores above a kept one; no keywords is a database error |
| Consistency.CountCategories | skill-prompt-generator-main/intelligent_generator.py:529-532 | the counting loop keys exactly the categories present, in first-appearance order, each with its number of elements |
| Consistency.CheckEyeRule | skill-prompt-generator-main/intelligent_generator.py:481-507 | the eye check's issues are the specified eye issues |
| Consistency.CheckHairRule | skill-prompt-generator-main/intelligent_generator.py:509-526 | the hair check's issues are the specified hair issues |
| Consistency.CheckDuplicateRule | skill-prompt-generator-main/intelligent_generator.py:528-547 | the duplicate check's issues are the specified duplicate issues |
| Consistency.CheckConsistency | skill-prompt-generator-main/intelligent_generator.py:464-549 | the issues are the eye issues, then the hair issues, then the duplicate issues |
| Consistency.DuplicateIssuesOfProps | skill-prompt-generator-main/intelligent_generator.py:537-547 | over the counted keys, an issue is raised for exactly the categories counted more than once outside the multi-element set, each with its count, with no category twice |
| Consistency.DuplicateIssuesExact | skill-prompt-generator-main/intelligent_generator.py:528-547 | a duplicate issue is raised for exactly the categories appearing more than once outside lighting and photography techniques, each once, severity "high", with its count |
| Consistency.NoDuplicateIssuesWhenBounded | skill-prompt-generator-main/intelligent_generator.py:537-539 | when every category appears at most once or is a multi-element category, no duplicate issue is raised |
| Consistency.EastAsianEyeRule | skill-prompt-generator-main/intelligent_generator.py:482-507 | an East Asian subject with blue, green or violet in the eye template gets one medium issue naming those colours and the typical eyes |
| Consistency.AfricanEyeRule | skill-prompt-generator-main/intelligent_generator.py:482-507 | an African subject gets the eye issue exactly when the eye template mentions blue or green, and no eye issue otherwise |
| Consistency.EyeRuleOnlyTwoEthnicities | skill-prompt-generator-main/intelligent_generator.py:486-496 | any other ethnicity raises no eye issue, whatever the eye template |
| Consistency.HairRule | skill-prompt-generator-main/intelligent_generator.py:509-526 | one hair issue exactly when the hair template mentions none of the typical colours; an ethnicity without a table entry always gets it, with an empty suggestion list |
| Completeness.CheckRequirement | skill-prompt-generator-main/intelligent_generator.py:568-659 | one requirement's check fails exactly when its lookup fails; otherwise it reports the requirement exactly when the expected keywords are non-empty and none occurs in the lower-cased prompt |
| Completeness.CheckRequirements | skill-prompt-generator-main/intelligent_generator.py:565-661 | the checking loop computes the specified issues over the requirement list |
| Completeness.CheckCompleteness | skill-prompt-generator-main/intelligent_generator.py:551-661 | `check_completeness` computes the specified issues for clothing, hairstyle, era, director style and lighting |
| Completeness.CompletenessOfSound | skill-prompt-generator-main/intelligent_generator.py:565-661 | every reported requirement is one of those checked, its expected keywords are its table's, and none of them occurs in the prompt |
| Completeness.CompletenessOfComplete | skill-prompt-generator-main/intelligent_generator.py:565-661 | a checked requirement is reported iff its expected keywords are non-empty and none occurs in the prompt |
| Completeness.CompletenessExact | skill-prompt-generator-main/intelligent_generator.py:551-661 | over the five requirements: reported iff unmet, and nothing else is reported |
| Completeness.LightingDefaultsToNatural | skill-prompt-generator-main/intelligent_generator.py:639-652 | without a lighting entry the natural-light keywords are expected |
| Completeness.ModernIsNotChecked | skill-prompt-generator-main/intelligent_generator.py:569-617 | clothing, hairstyle or era set to "modern" expects nothing |
| Completeness.CompletenessErrors | skill-prompt-generator-main/intelligent_generator.py:620-652 | the check fails only when the atmosphere entry is not a dict or a value used as a table key is unhashable |
| Completeness.ErrorsOf | skill-prompt-generator-main/intelligent_generator.py:565-661 | over any requirement list, a failure comes only from a non-dict atmosphere or an unhashable key |
| Resolve.RemoveCategory | skill-prompt-generator-main/intelligent_generator.py:688 | the filtered list keeps exactly the elements of other categories, and only them |
| Resolve.ResolveConflicts | skill-prompt-generator-main/intelligent_generator.py:663-727 | the repair loop computes the specified fold of the issues over the elements, with the fixes it records |
| Resolve.KeepFirst | skill-prompt-generator-main/intelligent_generator.py:711-724 | the keep-first loop computes the specified filter that keeps the first element of the category |
| Resolve.RemoveCategoryCount | skill-prompt-generator-main/intelligent_generator.py:688 | removing a category leaves none of it and every other category's count unchanged |
| Resolve.KeepFirstFromCount | skill-prompt-generator-main/intelligent_generator.py:711-724 | after the duplicate repair the category appears once (if it appeared at all) and every other category's count is unchanged |
| Resolve.KeepFirstFromSubsequence | skill-prompt-generator-main/intelligent_generator.py:711-724 | the duplicate repair only deletes: the result is a subsequence of the input, order kept |
| Resolve.KeepFirstFromKept | skill-prompt-generator-main/intelligent_generator.py:715-722 | once an element of the category has been kept, the loop keeps exactly the elements of the other categories |
| Resolve.KeepFirstFromShape | skill-prompt-generator-main/intelligent_generator.py:711-724 | the duplicate repair keeps the input up to and including the first element of the category and drops only later elements of that category; without such an element the list is unchanged |
| Resolve.EyeFixResult | skill-prompt-generator-main/intelligent_generator.py:673-695 | when a replacement eye element is found, it is appended last, exactly one eye element remains, other categories keep their counts, and one fix is recorded |
| Resolve.EyeReplacementCategory | skill-prompt-generator-main/intelligent_generator.py:679-684 | a replacement eye element is always of the eye-types category |
| Resolve.EastAsianEyeReplacementIsAlmond | skill-prompt-generator-main/intelligent_generator.py:675-682 | for an East Asian subject, or none, the replacement is named "almond brown" or "almond", ignoring case |
| Resolve.HairFixResult | skill-prompt-generator-main/intelligent_generator.py:697-709 | the hair repair fails exactly when the issue has no typical colours (the `[0]` index error); without a replacement nothing changes; a found replacement is named like the first typical colour, appended last as the only hair element, every other category keeps its count, and its fix note is recorded |
| Resolve.ResolveStepCovered | skill-prompt-generator-main/intelligent_generator.py:672-725 | one repair step keeps every later duplicate issue's coverage of the current elements |
| Resolve.ResolveAllRemovesDuplicates | skill-prompt-generator-main/intelligent_generator.py:663-727 | when the issues cover every duplicated category and the repair succeeds, no category outside the multi-element set appears more than once |
| Resolve.ResolveConsistencyIssues | skill-prompt-generator-main/intelligent_generator.py:464-549 | repairing the issues `check_consistency` raised leaves at most one element per category outside the multi-element set |
| Resolve.UnknownEthnicityFailsRepair | skill-prompt-generator-main/intelligent_generator.py:697-700 | an ethnicity without a typical-hair entry makes the repair of its own consistency issues fail |
| Resolve.ResolvePrefixThenError | skill-prompt-generator-main/intelligent_generator.py:697-700 | a hair issue without typical colours makes the whole repair fail, whatever came before it |
| Composer.SliceTo | skill-prompt-generator-main/intelligent_generator.py:798-800 | `keywords[:limit]` is a prefix of the list, of length min(limit, length) for a non-negative limit and length + limit (at least 0) for a negative one |
| Composer.KeywordFragment | skill-prompt-generator-main/intelligent_generator.py:809-825 | a kept keyword is its stripped text, non-empty, free of blacklisted words, and at least four characters long when it is a single word |
| Composer.TemplateFragment | skill-prompt-generator-main/intelligent_generator.py:848-854 | a kept template is its stripped text, non-empty and free of blacklisted words |
| Composer.AddKeywordFragments | skill-prompt-generator-main/intelligent_generator.py:806-845 | the keyword loop yields the fragments and seen concepts of the specified fold over the keyword list |
| Composer.ComposePrompt | skill-prompt-generator-main/intelligent_generator.py:749-873 | the composing loop returns the specified prompt, or its error |
| Composer.ConceptSetMembers | skill-prompt-generator-main/intelligent_generator.py:827-845 | a concept is among the seen concepts exactly when some emitted fragment has it |
| Composer.AddFragmentClean | skill-prompt-generator-main/intelligent_generator.py:843-845 | adding a fragment only appends and keeps the fragments non-empty, blacklist-free and pairwise of different concepts |
| Composer.AddKeywordsClean | skill-prompt-generator-main/intelligent_generator.py:806-845 | the keyword loop only appends, keeps the fragments clean and leaves the selected text alone |
| Composer.ComposeFromClean | skill-prompt-generator-main/intelligent_generator.py:790-871 | processing the elements only appends fragments and keeps them clean |
| Composer.ComposeClean | skill-prompt-generator-main/intelligent_generator.py:749-873 | the prompt fails exactly when an element reaches an unbound local; otherwise it is the fragments joined with ", ", and those are exactly the offered fragments (template or surviving keywords, element by element) with every one whose concept was already used dropped; no two share a concept and none is empty or blacklisted |
| Composer.KeywordOffersFrom | skill-prompt-generator-main/intelligent_generator.py:806-825 | every keyword fragment offered is the stripped text of one of the keywords, non-empty and free of blacklisted words |
| Composer.HereFrom | skill-prompt-generator-main/intelligent_generator.py:806-854 | what one element offers is the stripped text of the selected `text` or of the selected keywords, and nothing empty or blacklisted |
| Composer.OfferedFrom | skill-prompt-generator-main/intelligent_generator.py:790-854 | every offered fragment is non-empty, blacklist-free, and the stripped template or keyword of some element, or of a local bound before the first element |
| Composer.SelectBindings | skill-prompt-generator-main/intelligent_generator.py:795-803 | selecting for an element keeps `text` or binds it to the element's template, and keeps `text_list`, sets it to None or to the element's first `limit` keywords |
| Composer.ComposeFromOffered | skill-prompt-generator-main/intelligent_generator.py:790-871 | the element loop fails exactly when the offers do, and otherwise appends exactly the offered fragments of a not-yet-seen concept |
| Composer.KeepNewProps | skill-prompt-generator-main/intelligent_generator.py:827-845 | the kept fragments are an in-order subsequence of the offered ones, cover every offered concept, and the first fragment offered for each concept is the one kept |
| Seqs.FirstPerKeyProps | skill-prompt-generator-main/intelligent_generator.py:827-845 | keeping the first element of each new key yields an in-order subsequence whose keys are all new, are exactly the new keys of the input, and include the first element of every new key |
| Seqs.FirstPerKeyConcat | skill-prompt-generator-main/intelligent_generator.py:827-845 | keeping the first of each key over two batches equals keeping it over the first batch, then over the second with the first batch's keys already seen |
| Composer.SimpleModeFails | skill-prompt-generator-main/intelligent_generator.py:795-806 | "simple" mode never binds `text_list`, so any non-empty element list raises UnboundLocalError |
| Composer.ComposeEmpty | skill-prompt-generator-main/intelligent_generator.py:756-873 | no elements give the empty prompt in every mode |
| Composer.AutoModeUsesKeywords | skill-prompt-generator-main/intelligent_generator.py:799-803 | in auto mode an element with at least three keywords contributes its first `limit` keywords, any other contributes its template |
| Composer.AutoModeZeroLimitFirstElement | skill-prompt-generator-main/intelligent_generator.py:799-806 | a zero limit on a first element with three keywords leaves `text` unbound: UnboundLocalError |
| Composer.AssemblePromptFromElements | skill-prompt-generator-main/intelligent_generator.py:956-976 | the loop joins the subject (when given) and the non-empty templates with ", " |
| Composer.NonEmptyTemplatesProps | skill-prompt-generator-main/intelligent_generator.py:971-974 | the kept templates are exactly the non-empty templates in element order (the templates filtered by non-emptiness), none empty and every non-empty one kept |
| Composer.UpdateUsageStats | skill-prompt-generator-main/intelligent_generator.py:1028-1059 | the statistics loop computes the specified fold of one recorded use per valid element id |
| Composer.RecordUseTotal | skill-prompt-generator-main/intelligent_generator.py:1041-1059 | one use adds 1 to the id's count and the quality to its total (count times average), creating the record when absent, and touches no other id |
| Composer.RecordUseFor | skill-prompt-generator-main/intelligent_generator.py:1041-1059 | seen from any id, one use raises its count by 1 and its total by the quality exactly when it is that id |
| Composer.RecordUsesCount | skill-prompt-generator-main/intelligent_generator.py:1028-1059 | after the loop each id is recorded iff it was before or used, and its count grew by the number of its uses |
| Composer.RecordUsesTotal | skill-prompt-generator-main/intelligent_generator.py:1028-1059 | after the loop each id's total quality grew by its number of uses times the quality |
| FrameworkLoader.RequiredFieldsExact | skill-prompt-generator-main/framework_loader.py:65-75 | a name is listed iff it is "category.field" for a required field of a required category |
| FrameworkLoader.RequiredInExact | skill-prompt-generator-main/framework_loader.py:71-73 | within one category, exactly the required fields are listed, qualified by the category |
| FrameworkLoader.RequiredFieldsInOrder | skill-prompt-generator-main/framework_loader.py:65-75 | the required fields come out in framework order: a subsequence of all qualified field names |
| FrameworkLoader.GetAllFieldsKeys | skill-prompt-generator-main/framework_loader.py:40-62 | the dictionary has one key per qualified field name of the framework, and no other |
| FrameworkLoader.AssignLast | skill-prompt-generator-main/framework_loader.py:53-60 | a dictionary built by assignment holds, for a key, the value of the last pair with that key |
| FrameworkLoader.QualifiedNameInjective | skill-prompt-generator-main/framework_loader.py:55 | with dot-free names, a qualified name determines its category and field |
| FrameworkLoader.SplitField | skill-prompt-generator-main/framework_loader.py:99 | a successful split gives two dot-free parts whose qualified name is the path (a path without exactly one dot is a ValueError) |
| FrameworkLoader.SplitFieldInjective | skill-prompt-generator-main/framework_loader.py:99 | different well-formed paths split differently |
| FrameworkLoader.FieldValue | skill-prompt-generator-main/framework_loader.py:100 | `intent.get(category, {}).get(field)`: None without the category, the field's value (or None) in a dict, an AttributeError on a non-dict |
| FrameworkLoader.CallerView | skill-prompt-generator-main/framework_loader.py:89 | the caller's intent keeps its own keys: the shallow copy adds categories only to the copy |
| FrameworkLoader.CheckConditions | skill-prompt-generator-main/framework_loader.py:95-104 | the condition loop computes the specified verdict, stopping at the first unmet condition |
| FrameworkLoader.AssignFields | skill-prompt-generator-main/framework_loader.py:110-117 | the `then` loop computes the specified assignments, and the caller's intent sees exactly the writes into the category dicts it shares |
| FrameworkLoader.ApplyDependencies | skill-prompt-generator-main/framework_loader.py:78-119 | the completed intent is the rules applied in order; it keeps every key of the input, and the caller's intent changes only inside shared category dicts |
| PyValue.PyEqRefl | skill-prompt-generator-main/framework_loader.py:102 | Python's `==` on values holds between a value and itself |
| PyValue.PyMemberProps | skill-prompt-generator-main/core/variable_sampler.py:176 | list membership uses Python's `==`: it holds for every item, agrees with plain equality for strings and None, and treats 1, 1.0 and True alike |
| FrameworkLoader.ConditionsMetIff | skill-prompt-generator-main/framework_loader.py:98-104 | a rule's conditions are met exactly when each field's value equals the expected one in Python's sense (`1 == 1.0 == True`) |
| FrameworkLoader.SetFieldStep | skill-prompt-generator-main/framework_loader.py:110-116 | a well-formed entry on a writable category succeeds and the loop continues from its result |
| FrameworkLoader.SetFieldsOk | skill-prompt-generator-main/framework_loader.py:110-116 | the assignments succeed exactly when every path is well formed and names an absent or dict category |
| FrameworkLoader.SetFieldsFrame | skill-prompt-generator-main/framework_loader.py:110-116 | successful assignments keep every category and change only categories some entry names |
| FrameworkLoader.SetFieldsLastWins | skill-prompt-generator-main/framework_loader.py:110-116 | after the assignments, each entry's category is a dict holding the value of the last entry with that path |
| FrameworkLoader.SetFieldsKeeps | skill-prompt-generator-main/framework_loader.py:110-116 | a field no entry names keeps its value |
| FrameworkLoader.RuleFires | skill-prompt-generator-main/framework_loader.py:93-117 | a rule without `when` never fires; one whose conditions all hold applies its `then` part; one with an unmet condition changes nothing |
| FrameworkLoader.ValidateIntent | skill-prompt-generator-main/framework_loader.py:122-171 | the validation loops compute the specified issues: missing required fields first, then consistency issues |
| FrameworkLoader.CheckAll | skill-prompt-generator-main/framework_loader.py:148-169 | the consistency loop computes the specified consistency issues |
| FrameworkLoader.CheckOne | skill-prompt-generator-main/framework_loader.py:150-169 | one check's loop computes the specified issues for that check |
| FrameworkLoader.MissingIssuesExact | skill-prompt-generator-main/framework_loader.py:134-145 | on success, a missing-field issue is raised exactly for each required field whose category or field is absent, with its message |
| FrameworkLoader.CheckConditionsIssuesCount | skill-prompt-generator-main/framework_loader.py:152-169 | a check raises one identical issue per condition whose value list holds the intent's value, and a non-list condition raises nothing |
| FrameworkLoader.FieldSearch | skill-prompt-generator-main/framework_loader.py:397-413 | a field is looked up only when its config has a `db_category` |
| FrameworkLoader.DefaultsSkipped | skill-prompt-generator-main/framework_loader.py:400-407 | a field whose value (or default) is falsy or one of modern, natural, auto, none is never looked up |
| FrameworkLoader.SearchKeywordsOf | skill-prompt-generator-main/framework_loader.py:400-413 | a non-default string value is searched by its `search_keywords` entry, else by itself |
| FrameworkLoader.SkippedCategoriesNotSearched | skill-prompt-generator-main/framework_loader.py:386-397 | subject, expression, scene and technical contribute no lookups; every lookup names a field of another category |
| FrameworkLoader.FieldSearchesNames | skill-prompt-generator-main/framework_loader.py:397-413 | every lookup of a category names one of its fields |
| ElementSelector.MatchedCount | skill-prompt-generator-main/framework_loader.py:530-541 | the number of matched user keywords is at most the number of keywords |
| ElementSelector.Adjustment | skill-prompt-generator-main/framework_loader.py:561-614 | the semantic adjustment is -20, -10, 0 or +10; it is negative exactly when the user wants baby fat and the element looks refined, and otherwise +10 exactly when every keyword occurs in the element's keywords or template |
| ElementSelector.Clamp | skill-prompt-generator-main/framework_loader.py:558 | the clamp lands in [0, 100] and leaves a score already there unchanged |
| ElementSelector.CalculateMatchScore | skill-prompt-generator-main/framework_loader.py:481-558 | the scoring loop computes the specified score, which lies in [0, 100] |
| ElementSelector.KeywordScoreRange | skill-prompt-generator-main/framework_loader.py:530-544 | the keyword part lies in [0, 60] and reaches 60 exactly when every keyword matches |
| ElementSelector.MatchedCountFull | skill-prompt-generator-main/framework_loader.py:530-541 | every keyword is counted exactly when each occurs in the element's keywords, template or name |
| ElementSelector.PerfectMatchScore | skill-prompt-generator-main/framework_loader.py:530-558 | a conflict-free element matching every keyword scores 70 plus three times its quality |
| ElementSelector.LookupScoreIgnoresTemplateAndScore | skill-prompt-generator-main/framework_loader.py:507-509 | an element as the store lookup returns it (keys `template` and `reusability`) is scored from its keywords and name alone: template and score do not change it |
| ElementSelector.SelectBestElement | skill-prompt-generator-main/framework_loader.py:617-678 | the selection loop computes the specified choice and score |
| ElementSelector.BestProps | skill-prompt-generator-main/framework_loader.py:655-671 | the strict `>` scan from 0 finds nothing iff every score is 0, and otherwise the first candidate with the greatest score, with that score |
| ElementSelector.SelectBestProps | skill-prompt-generator-main/framework_loader.py:617-678 | no element (score 0) exactly when every candidate scores 0; otherwise the first candidate of greatest match score |
| ElementSelector.SelectFromCandidatesDict | skill-prompt-generator-main/framework_loader.py:681-711 | the field loop computes the specified selection map |
| ElementSelector.SelectAllExact | skill-prompt-generator-main/framework_loader.py:699-711 | a field is in the result iff its best element exists, and then maps to it, scored with its own keywords or none |
| ElementSelector.SelectAllNames | skill-prompt-generator-main/framework_loader.py:699-711 | only fields with candidate lists appear in the result |
| CrossDomainGenerator.SoftwareTask | skill-prompt-generator-main/core/cross_domain_generator.py:113-129 | a detected software task is one of the eight task names |
| CrossDomainGenerator.DesignStyle | skill-prompt-generator-main/core/cross_domain_generator.py:170-173 | a detected design style is 温馨可爱 or 现代简约 |
| CrossDomainGenerator.AnyCue | skill-prompt-generator-main/core/cross_domain_generator.py:113 | the cue loop answers `any(kw in text for kw in cues)` |
| CrossDomainGenerator.ParseUserInput | skill-prompt-generator-main/core/cross_domain_generator.py:89-185 | the parser builds the specified intent from the raw input |
| CrossDomainGenerator.SubjectOf | skill-prompt-generator-main/core/cross_domain_generator.py:143-156 | gender (on the lower-cased input), ethnicity and age (on the raw input) form the specified subject |
| CrossDomainGenerator.VisualStyleOf | skill-prompt-generator-main/core/cross_domain_generator.py:164-167 | the art style cues give the specified visual style |
| CrossDomainGenerator.DesignStyleOf | skill-prompt-generator-main/core/cross_domain_generator.py:170-173 | the design style cues give the specified design style |
| CrossDomainGenerator.LightingOf | skill-prompt-generator-main/core/cross_domain_generator.py:180-183 | the lighting cues give the specified lighting, natural by default |
| CrossDomainGenerator.SoftwareTaskOf | skill-prompt-generator-main/core/cross_domain_generator.py:113-129 | the if/elif chain over the cue groups computes the software task the first matching group selects |
| CrossDomainGenerator.LanguageOf | skill-prompt-generator-main/core/cross_domain_generator.py:132-135 | the independent language tests, last one winning, give the specified language |
| CrossDomainGenerator.FrameworkOf | skill-prompt-generator-main/core/cross_domain_generator.py:137-140 | the independent framework tests, last one winning, give the specified framework |
| CrossDomainGenerator.JavaScriptReadsAsJava | skill-prompt-generator-main/core/cross_domain_generator.py:132-135 | an input mentioning javascript (and not go) is read as Java, since "java" occurs inside it and its test comes later |
| CrossDomainGenerator.WomanIsFemale | skill-prompt-generator-main/core/cross_domain_generator.py:143-146 | "woman" gives female even though it contains "man", because the female cues are tried first |
| CrossDomainGenerator.AnyIn | skill-prompt-generator-main/core/cross_domain_generator.py:215 | `kw in art_style` fails exactly on a non-container value with some keyword to test, and on a string is substring search |
| CrossDomainGenerator.Classify | skill-prompt-generator-main/core/cross_domain_generator.py:187-226 | classification raises exactly when neither software nor design applies and the art style is not a string, list or dict |
| CrossDomainGenerator.ClassifyIntentOf | skill-prompt-generator-main/core/cross_domain_generator.py:187-226 | for a parser-shaped intent: software if a task is set, else design if a style or requirement, else cross-domain for the kamehameha action or a special art style, else portrait when a subject was found, else cross-domain |
| CrossDomainGenerator.IntentTask | skill-prompt-generator-main/core/cross_domain_generator.py:107-129 | the intent's software task is the detected one, else None |
| CrossDomainGenerator.IntentDesignStyle | skill-prompt-generator-main/core/cross_domain_generator.py:105-173 | the intent's design style is the detected one, else None |
| CrossDomainGenerator.IntentRequirement | skill-prompt-generator-main/core/cross_domain_generator.py:176-177 | the design requirement is True when a cue is present and absent otherwise |
| CrossDomainGenerator.IntentAction | skill-prompt-generator-main/core/cross_domain_generator.py:102-161 | the action is kamehameha when a cue is present, else None |
| CrossDomainGenerator.IntentEnergy | skill-prompt-generator-main/core/cross_domain_generator.py:159-161 | the energy is the blue blast exactly with the kamehameha action, else absent |
| CrossDomainGenerator.IntentVisual | skill-prompt-generator-main/core/cross_domain_generator.py:103-167 | the visual style is the detected dict |
| CrossDomainGenerator.IntentSubject | skill-prompt-generator-main/core/cross_domain_generator.py:101-156 | the subject is the detected dict |
| CrossDomainGenerator.ClassifyParsed | skill-prompt-generator-main/core/cross_domain_generator.py:89-226 | a parsed input is always classified, by task, then design cues, then action or wax cues, then subject |
| CrossDomainGenerator.VisualSpecial | skill-prompt-generator-main/core/cross_domain_generator.py:164-167 | the parsed art style counts as special exactly when a wax/3D cue is in the input |
| CrossDomainGenerator.Route | skill-prompt-generator-main/core/cross_domain_generator.py:64-87 | an explicit generation type, when accepted, is the one that runs |
| CrossDomainGenerator.RouteByName | skill-prompt-generator-main/core/cross_domain_generator.py:70-87 | the four type names are accepted; any other name raises ValueError |
| CrossDomainGenerator.RouteParsed | skill-prompt-generator-main/core/cross_domain_generator.py:61-65 | "auto" routes a parsed input to its classification, which always succeeds |
| CrossDomainGenerator.Normalized | skill-prompt-generator-main/core/cross_domain_generator.py:320-325 | a merged element gains `template` and `category` only when missing (from `ai_prompt_template` and `category_id`, with defaults) and always its source domain; every other key is kept |
| CrossDomainGenerator.NormalizedAll | skill-prompt-generator-main/core/cross_domain_generator.py:318-326 | each element of a domain is normalized, in order |
| CrossDomainGenerator.DomainNames | skill-prompt-generator-main/core/cross_domain_generator.py:366 | the domains used are the query result's keys, in order |
| CrossDomainGenerator.MergedProps | skill-prompt-generator-main/core/cross_domain_generator.py:316-326 | the merge keeps every element of every domain, each normalized with its domain's name |
| CrossDomainGenerator.MergeElements | skill-prompt-generator-main/core/cross_domain_generator.py:316-326 | the nested merge loop computes the specified merge |
| CrossDomainGenerator.NormalizeElements | skill-prompt-generator-main/core/cross_domain_generator.py:318-326 | the inner loop normalizes each element of one domain |
| CrossDomainGenerator.AdditionsProps | skill-prompt-generator-main/core/cross_domain_generator.py:335-339 | the supplement adds, in order, only extra elements whose id was not among the merged ones, each marked `portrait_supplement` |
| CrossDomainGenerator.SupplementedProps | skill-prompt-generator-main/core/cross_domain_generator.py:331-339 | five or more elements are left alone; otherwise the merged list is kept as a prefix and every addition has a new id and the supplement mark |
| CrossDomainGenerator.RepeatedExtraAddedTwice | skill-prompt-generator-main/core/cross_domain_generator.py:335-339 | the id set is built once, so an extra element listed twice is added twice |
| CrossDomainGenerator.SupplementElements | skill-prompt-generator-main/core/cross_domain_generator.py:331-339 | the supplement loop computes the specified supplement |
| CrossDomainGenerator.Picked | skill-prompt-generator-main/core/cross_domain_generator.py:412-429 | the picked descriptions keep table order, and every description whose cue hits is picked |
| CrossDomainGenerator.ScenePartsDistinct | skill-prompt-generator-main/core/cross_domain_generator.py:439-444 | after the dedupe loop no description appears twice |
| CrossDomainGenerator.ScenePartsDrawn | skill-prompt-generator-main/core/cross_domain_generator.py:387-444 | the parts come from the scene, character and style tables, in that order |
| CrossDomainGenerator.StyleParts | skill-prompt-generator-main/core/cross_domain_generator.py:432-436 | the style cues add the drama line, then the period line, each at most once |
| CrossDomainGenerator.SceneDescriptionParts | skill-prompt-generator-main/core/cross_domain_generator.py:373-446 | a non-empty raw input gives the distinct parts joined with ", " |
| CrossDomainGenerator.SceneDescriptionMentions | skill-prompt-generator-main/core/cross_domain_generator.py:383-446 | every part found occurs in the description |
| CrossDomainGenerator.PickScenes | skill-prompt-generator-main/core/cross_domain_generator.py:412-414 | the scene loop picks the descriptions of the scene groups with a cue in the raw input |
| CrossDomainGenerator.PickCharacters | skill-prompt-generator-main/core/cross_domain_generator.py:427-429 | the character loop picks the names that occur in the raw input |
| CrossDomainGenerator.DedupeParts | skill-prompt-generator-main/core/cross_domain_generator.py:439-444 | the dedupe loop keeps the first occurrence of each part, in order |
| CrossDomainGenerator.ExtractSceneDescription | skill-prompt-generator-main/core/cross_domain_generator.py:373-446 | the method computes the specified description, or the error a non-string raw input raises |
| CrossDomainGenerator.CollectParts | skill-prompt-generator-main/core/cross_domain_generator.py:383-435 | the collection loops gather exactly the specified parts, in collection order |
| CrossDomainGenerator.FinalPrompt | skill-prompt-generator-main/core/cross_domain_generator.py:357-360 | the final prompt ends with the base prompt and, with a scene, starts with the scene and ", " |
| CrossDomainGenerator.GenerateCrossDomain | skill-prompt-generator-main/core/cross_domain_generator.py:295-371 | the result combines the supplemented merge, the repair when issues exist, the scene prefix and the metadata (domains, element count, issues, enhanced flag); an error of the consistency check, the repair, the scene extraction or the composition, in that order, is the result instead |
| CrossDomainQuery.AnalyzeRequiredDomains | skill-prompt-generator-main/core/cross_domain_query.py:90-141 | the analysis computes the specified domain set, or the error it raises |
| CrossDomainQuery.RequiredDomainsMembers | skill-prompt-generator-main/core/cross_domain_query.py:100-141 | fails exactly on a non-string raw input or an unprintable art style; otherwise always "common", "portrait" iff a subject key, "video" iff a motion key or an energy cue, "art" iff an art key with an art keyword in its text, "design" iff a layout key, "product" iff a product key, and nothing else |
| CrossDomainQuery.AnyKeyIn | skill-prompt-generator-main/core/cross_domain_query.py:108 | the key loop answers whether any listed key is in the intent |
| CrossDomainQuery.AnyCue | skill-prompt-generator-main/core/cross_domain_query.py:113 | the cue loop answers `any(kw in text for kw in cues)` |
| CrossDomainQuery.Assign | skill-prompt-generator-main/core/cross_domain_query.py:158-197 | assigning a present key keeps the plan's length; a new key is appended at the end |
| CrossDomainQuery.QueryPlanProps | skill-prompt-generator-main/core/cross_domain_query.py:143-199 | the plan has each domain once, exactly the known domains asked for, each with its fixed category list |
| CrossDomainQuery.PlanCoversRequired | skill-prompt-generator-main/core/cross_domain_query.py:53-57 | every required domain gets a plan entry, and nothing else does |
| CrossDomainQuery.Found | skill-prompt-generator-main/core/cross_domain_query.py:259 | the filtered cues keep list order and are exactly those occurring in the text |
| CrossDomainQuery.ExtractKeywords | skill-prompt-generator-main/core/cross_domain_query.py:241-289 | only the four cue categories can fail, exactly when the raw input is not a string; lighting yields the truthy lighting value (natural by default); any other category yields nothing |
| CrossDomainQuery.CueKeywords | skill-prompt-generator-main/core/cross_domain_query.py:256-280 | for scenes, motion and effects, the keywords are exactly the category's cues found in the lower-cased raw input |
| CrossDomainQuery.ArtStyleKeywordsProps | skill-prompt-generator-main/core/cross_domain_query.py:266-275 | the art keywords start with the art style when the visual style is a dict with a truthy art style, followed exactly by the art cues found in the lower-cased input |
| CrossDomainQuery.KeywordStrings | skill-prompt-generator-main/core/cross_domain_query.py:228-233 | keywords are usable by the selector exactly when all are strings, which are then passed unchanged |
| CrossDomainQuery.CategoryLookupSound | skill-prompt-generator-main/core/cross_domain_query.py:291-302 | every candidate the lookup returns has the category it was asked for |
| CrossDomainQuery.SelectedProps | skill-prompt-generator-main/core/cross_domain_query.py:215-237 | a category yields nothing without candidates; otherwise its best candidate, kept only when it scores above 20 and no candidate scores higher; a keyword failure is an error only when there are candidates to score |
| CrossDomainQuery.QueriedDomainOrder | skill-prompt-generator-main/core/cross_domain_query.py:213-239 | at most one element per category, in category order |
| CrossDomainQuery.QueriedDomainKept | skill-prompt-generator-main/core/cross_domain_query.py:222-237 | every element kept is the best candidate of its category and scored above 20 |
| CrossDomainQuery.QueryDomain | skill-prompt-generator-main/core/cross_domain_query.py:201-239 | the category loop computes the specified result for the domain |
| CrossDomainQuery.SelectFromCategory | skill-prompt-generator-main/core/cross_domain_query.py:215-237 | one category's step computes the specified selection |
| CrossDomainQuery.BestElement | skill-prompt-generator-main/core/cross_domain_query.py:228-234 | the selection is the first candidate of greatest score, as `select_best_element` picks it |
| CrossDomainQuery.Substituted | skill-prompt-generator-main/core/cross_domain_query.py:71-86 | an element is replaced by a copy with the sampled template and variables exactly when sampling succeeded with a non-empty variable map; otherwise it is kept as it is |
| CrossDomainQuery.SubstitutedAll | skill-prompt-generator-main/core/cross_domain_query.py:69-86 | each element of a domain is substituted, in order |
| CrossDomainQuery.QueryByIntent | skill-prompt-generator-main/core/cross_domain_query.py:36-88 | the result has exactly the required domains as keys, each holding its queried and sampled elements; an error comes from the domain analysis or from some required domain |
| CrossDomainQuery.RunPlan | skill-prompt-generator-main/core/cross_domain_query.py:60-86 | the plan loop gives each planned domain its result, and fails only when some planned domain fails |
| CrossDomainQuery.QueryAndSample | skill-prompt-generator-main/core/cross_domain_query.py:63-86 | one domain's query followed by sampling computes the specified domain result |
| CrossDomainQuery.SubstituteElements | skill-prompt-generator-main/core/cross_domain_query.py:68-86 | the sampling loop substitutes each element in order |
| CrossDomainQuery.ParsedDomains | skill-prompt-generator-main/core/cross_domain_query.py:100-141 | a parsed intent always needs portrait, video (the parser always sets `action`) and common, plus art exactly when a wax/3D cue is in the input |
| CrossDomainQuery.DomainsOfParsedShape | skill-prompt-generator-main/core/cross_domain_query.py:100-141 | an intent with a subject, a motion key and an art key, and no design or product key, needs portrait, video and common, plus art when its art text has an art keyword |
| VariableSampler.FindElement | skill-prompt-generator-main/core/variable_sampler.py:30-60 | a found element is a row with the requested id; nothing is found exactly when no row has that id |
| VariableSampler.Put | skill-prompt-generator-main/core/variable_sampler.py:122-126 | assigning into the insertion-ordered variables dict replaces the value of an existing name in place and keeps the names, and appends a new name at the end |
| VariableSampler.Placeholder | skill-prompt-generator-main/core/variable_sampler.py:254 | the placeholder `{name}` is never empty |
| VariableSampler.ApplyVariablesLoop | skill-prompt-generator-main/core/variable_sampler.py:245-257 | the loop over the variables computes the specified substitution of every `{name}` by the value's text, variable by variable in dict order |
| VariableSampler.ApplyOneProps | skill-prompt-generator-main/core/variable_sampler.py:254-256 | one substitution cuts the template at every occurrence of the placeholder, the cuts joined by the placeholder give the template back, no cut holds the placeholder, and the result joins the cuts with the value's text |
| VariableSampler.ApplyWithoutPlaceholders | skill-prompt-generator-main/core/variable_sampler.py:255 | a template holding none of the placeholders comes back unchanged |
| VariableSampler.KeepPreferred | skill-prompt-generator-main/core/variable_sampler.py:216 | the kept values are a subsequence of the values, every kept value is in the preferred collection, and every value that is in it is kept |
| VariableSampler.FilterByStyleProps | skill-prompt-generator-main/core/variable_sampler.py:211-219 | the filter returns the values unchanged or a non-empty subsequence of preferred values; when the preference is set and some value is preferred, only preferred values come back |
| VariableSampler.AdjustRangeProps | skill-prompt-generator-main/core/variable_sampler.py:221-233 | for an ordered numeric range the adjusted range stays ordered inside the original; "low" keeps the lower half, "high" the upper half, any other preference keeps the range |
| VariableSampler.SampleDrawDrawable | skill-prompt-generator-main/core/variable_sampler.py:148-209 | every draw the sampler can make has a value: an enum pool is non-empty and an integer range is ordered |
| VariableSampler.EnumDrawProps | skill-prompt-generator-main/core/variable_sampler.py:163-180 | an enum without values gives the default; for a list or string of values the value comes from the style-filtered values, and when history is avoided among several values and one of them is not recent, the value is not a recent one |
| VariableSampler.DictEnumDrawProps | skill-prompt-generator-main/core/variable_sampler.py:163-180 | for a dict of possible values the value is one of its keys, a preferred key when the style prefers any, a non-recent key when history is avoided among several keys and one is not recent; `random.choice` on the dict itself, reached exactly when neither filter kept a key, raises KeyError |
| VariableSampler.RangeDrawProps | skill-prompt-generator-main/core/variable_sampler.py:182-200 | a range that is not a pair gives the default; an ordered integer pair without a style context draws an integer between its bounds |
| VariableSampler.PutAllNames | skill-prompt-generator-main/core/variable_sampler.py:122-126 | the sampled dict holds each parameter name once, in order of first appearance |
| VariableSampler.Sampler.constructor | skill-prompt-generator-main/core/variable_sampler.py:18-28 | a new sampler starts with an empty history |
| VariableSampler.Sampler.GetRecentValues | skill-prompt-generator-main/core/variable_sampler.py:235-243 | the first n values of the history read newest record first, whatever the variable id |
| VariableSampler.Sampler.SampleVariable | skill-prompt-generator-main/core/variable_sampler.py:148-209 | the sampled value is one the specified draw allows against the three most recent values, and a type error of the draw is passed on |
| VariableSampler.Sampler.SampleAll | skill-prompt-generator-main/core/variable_sampler.py:122-126 | on success every variable has a value its draw allows, gathered into the dict; a failure comes from some variable whose draw fails |
| VariableSampler.Sampler.SampleElementWithVariables | skill-prompt-generator-main/core/variable_sampler.py:93-146 | an unknown element raises ValueError and leaves the history; an element without variables returns its template; otherwise every variable is drawn, the template is filled with the values, one record is appended and the history is cut to the newest 100 |
| DesignVariables.CandidatesOfAbsent | skill-prompt-generator-main/core/variable_sampler.py:312-329 | a type absent from the rows has no candidates |
| DesignVariables.GroupsOfProps | skill-prompt-generator-main/core/variable_sampler.py:312-329 | the grouping has one entry per type in order of first appearance, no type twice, and each entry lists exactly that type's candidates in row order, never empty |
| DesignVariables.GroupByType | skill-prompt-generator-main/core/variable_sampler.py:312-329 | the loop over the rows builds the specified grouping |
| DesignVariables.NewestIdsOtherTypes | skill-prompt-generator-main/core/variable_sampler.py:357-365 | records of other types do not change the recent ids of a type |
| DesignVariables.NewestIdsMembers | skill-prompt-generator-main/core/variable_sampler.py:357-365 | an id is among a type's history ids exactly when some record of that type holds it |
| DesignVariables.PoolProps | skill-prompt-generator-main/core/variable_sampler.py:335-340 | the pool is drawn from the candidates and is non-empty when they are; when some candidate is not recent, no recent one is in the pool; when all are recent, all stay |
| DesignVariables.DesignSampler.constructor | skill-prompt-generator-main/core/variable_sampler.py:267-277 | a new sampler starts with an empty history |
| DesignVariables.DesignSampler.GetRecentVariables | skill-prompt-generator-main/core/variable_sampler.py:357-365 | the newest n ids of the type, newest first (at least one when n is 0, since the length test follows the append) |
| DesignVariables.DesignSampler.SampleGroups | skill-prompt-generator-main/core/variable_sampler.py:332-349 | one selection per type, in group order, each from its pool against the history before the call, and one record per selection appended |
| DesignVariables.DesignSampler.SampleType | skill-prompt-generator-main/core/variable_sampler.py:335-349 | the selection comes from the pool of the type against the history, and its record is appended |
| DesignVariables.DesignSampler.SampleDesignVariables | skill-prompt-generator-main/core/variable_sampler.py:279-355 | no matching rows give an empty result and keep the history; otherwise one selection per matching type, each from the pool that avoids the type's three most recent ids, and the history gains the records and is cut to the newest 100 |
| YamlSampler.ResolveStyle | skill-prompt-generator-main/core/yaml_sampler.py:90-96 | a known style is kept; an unknown one falls back to the first key of the table, or to nothing when that key is empty or the table is empty; an unhashable style is an error; a resolved style is always a key of the table |
| YamlSampler.ScanDone | skill-prompt-generator-main/core/yaml_sampler.py:189-211 | when the backwards scan stops, the names collected are a prefix of the distinct names of the category, newest first, and exactly the first n of them when n is positive |
| YamlSampler.DedupePrefix | skill-prompt-generator-main/core/yaml_sampler.py:205-206 | the distinct names of a history are a prefix of the distinct names of any longer history, so stopping early loses no name the full scan would put first |
| YamlSampler.DescriptionPartsProps | skill-prompt-generator-main/core/yaml_sampler.py:213-248 | at most three parts; a decoration always gives the last part, naming it; a colour part appears first exactly when a variant was chosen; with neither colours nor borders only the decoration part remains |
| YamlSampler.GetPromptDescription | skill-prompt-generator-main/core/yaml_sampler.py:213-248 | the description is the parts joined by a comma and a space, and a malformed variant or border is an error |
| YamlSampler.YamlVariableSampler.constructor | skill-prompt-generator-main/core/yaml_sampler.py:18-32 | the three loaded tables are stored and the history starts empty |
| YamlSampler.YamlVariableSampler.GetRecentValues | skill-prompt-generator-main/core/yaml_sampler.py:189-211 | the first n distinct non-empty names of the category, newest record first; at most one when n is 0 |
| YamlSampler.YamlVariableSampler.SampleColors | skill-prompt-generator-main/core/yaml_sampler.py:88-127 | no style or no main scheme (one whose name holds neither 文字 nor 背景 and whose data is a dict) gives the empty result; otherwise the scheme is one of the main schemes, avoiding the two most recent when possible, with its data and a variant drawn from its list; it fails only with the options' error or a picked scheme's variants' error, and succeeds whenever neither can raise |
| YamlSampler.YamlVariableSampler.SampleKeyed | skill-prompt-generator-main/core/yaml_sampler.py:129-187 | a border or decoration is picked from the resolved style's options, avoiding the two most recent names when possible, with its configuration; an empty style table or option table picks nothing |
| YamlSampler.YamlVariableSampler.SampleVariables | skill-prompt-generator-main/core/yaml_sampler.py:44-86 | a type is sampled exactly when it is requested and its table is non-empty; each pick is the `{}` of empty options or the scheme, border or decoration of the resolved style with its data or configuration, avoiding the two most recent names of its type; it fails exactly when a sampled type's options (or a picked scheme's variants) raise, with the first such error in colours, borders, decorations order; on success one record is appended and the history cut to the newest 100, on failure it is unchanged |
| YamlSampler.YamlVariableSampler.SampleTypes | skill-prompt-generator-main/core/yaml_sampler.py:61-73 | the three guarded samplings against the unchanged history, with the same pick and failure statements |
| YamlSampler.YamlVariableSampler.SampleBorders | skill-prompt-generator-main/core/yaml_sampler.py:129-157 | the options' error, or `{}` without options, or a border of the resolved style with its configuration avoiding the two most recent border names |
| YamlSampler.YamlVariableSampler.SampleDecorations | skill-prompt-generator-main/core/yaml_sampler.py:159-187 | the options' error, or `{}` without options, or a decoration of the resolved style with its configuration avoiding the two most recent decoration names |
| YamlSampler.YamlVariableSampler.AddRecord | skill-prompt-generator-main/core/yaml_sampler.py:76-84 | the history becomes its newest 100 records after appending the new one |
| YamlSampler.PickName | skill-prompt-generator-main/core/yaml_sampler.py:109-115 | from non-empty options a name can always be picked by the avoid-recent rule |
| YamlSampler.PickAvoidsNewest | skill-prompt-generator-main/core/yaml_sampler.py:107-115 | when some option was not used recently, the picked name is not recent and in particular differs from the newest name of its category |
| YamlSampler.RepeatWithTwoOptions | skill-prompt-generator-main/core/yaml_sampler.py:111-112 | when every option was used recently the rule falls back to all options, so a recent name can be picked again |
| DesignBridge.ContentRouting | skill-prompt-generator-main/core/design_bridge.py:104-116 | the content list is a subsequence of the elements, holds only portrait, video and art elements, and holds every one of them |
| DesignBridge.TechnicalRouting | skill-prompt-generator-main/core/design_bridge.py:117-125 | the technical list is a subsequence of the elements, holds only common elements whose category mentions lighting or photography, and holds every one of them |
| DesignBridge.RoutingDisjoint | skill-prompt-generator-main/core/design_bridge.py:109-125 | no element is routed twice: content and technical together are at most the elements |
| DesignBridge.DesignAndProductDropped | skill-prompt-generator-main/core/design_bridge.py:109-125 | design and product elements reach neither list |
| DesignBridge.DesignItemsProps | skill-prompt-generator-main/core/design_bridge.py:127-155 | the design items are, in order, a colour item exactly when a variant was chosen, a border item exactly when the border has a radius, and a decoration item exactly when a decoration was sampled; without colours and borders no error can arise |
| DesignBridge.MergeElementsAndVariables | skill-prompt-generator-main/core/design_bridge.py:83-157 | the nested loops build the content and technical routings of the flattened elements in order, next to the design items, and a malformed variant or border is an error |
| DesignBridge.NonEmptyProps | skill-prompt-generator-main/core/design_bridge.py:172-187 | dropping empty texts keeps a subsequence that holds exactly the non-empty texts |
| DesignBridge.FinalPartsProps | skill-prompt-generator-main/core/design_bridge.py:159-189 | the prompt parts keep the order content templates, design descriptions, technical templates, and hold exactly their non-empty texts |
| DesignBridge.BuildFinalPrompt | skill-prompt-generator-main/core/design_bridge.py:159-189 | the three loops produce the parts joined by a comma and a space |
| DesignBridge.TotalCountIsFlatLength | skill-prompt-generator-main/core/design_bridge.py:78 | the element count over all domains is the number of elements the merge walks through |
| DesignBridge.CountElements | skill-prompt-generator-main/core/design_bridge.py:78 | the counting loop computes that count |
| DesignBridge.Ordered | skill-prompt-generator-main/core/design_bridge.py:51 | the query's dict becomes a list of (domain, elements) with each domain once, exactly the dict's domains, each with its own elements |
| DesignBridge.GenerateDesignPrompt | skill-prompt-generator-main/core/design_bridge.py:34-81 | the design style is the intent's or 温馨可爱; on success the sampler's history gains this sampling's record, cut to the newest 100; the elements are exactly the query's result per required domain; the metadata counts every element and lists the domains; the prompt is the final prompt of the merge. A failed domain analysis or domain query is returned with the history unchanged; once the query succeeds, an error is the sampler's (history unchanged) or a design lookup's on the recorded sample, and with a query that succeeds and a sampling that cannot raise only a design lookup can fail |
| SoftwareGenerator.InAny | skill-prompt-generator-main/core/software_generator.py:96-105 | an `in` test over several keywords succeeds exactly on dicts, texts and lists, and is true exactly when some keyword is in the value |
| SoftwareGenerator.RoleForProps | skill-prompt-generator-main/core/software_generator.py:95-111 | the role comes from the first matching task rule, else frontend when the input mentions ui, frontend or css, else backend; a task that is not a container fails the `in` test |
| SoftwareGenerator.DetermineRoleProps | skill-prompt-generator-main/core/software_generator.py:90-111 | the role is one of the seven role keys; a non-text input raises AttributeError and a None task raises TypeError; a task mentioning test gives qa_engineer; with no task keyword the input decides between frontend and backend |
| SoftwareGenerator.TaskRoleProps | skill-prompt-generator-main/core/software_generator.py:92-111 | on a software task and a lowered input: the role is one of the seven keys; it is decided exactly when the task is a string, list or dict; a None task raises TypeError; a task mentioning test gives qa_engineer; without task keywords the frontend cues decide |
| SoftwareGenerator.RecommendFrameworkProps | skill-prompt-generator-main/core/software_generator.py:113-129 | the language is matched lower-cased; an empty configuration or an unknown language gives the standard library; otherwise the first framework of the testing, performance or web list, chosen by the kind of software task |
| SoftwareGenerator.NoBraceUnchanged | skill-prompt-generator-main/core/software_generator.py:57-73 | a text without braces holds no placeholder, so every replacement leaves it unchanged |
| SoftwareGenerator.FillTemplateNoPlaceholders | skill-prompt-generator-main/core/software_generator.py:55-73 | a template without braces is used unchanged as the software task's description |
| SoftwareGenerator.FillTemplateFeature | skill-prompt-generator-main/core/software_generator.py:63-65 | the template `{feature}` on its own becomes the raw input in single quotes, whatever the language, framework and tool (FillTemplateSlots states the general case) |
| SoftwareGenerator.ReplaceRender | skill-prompt-generator-main/core/software_generator.py:57-73 | replacing one `{name}` placeholder (with or without the `in` guard) turns exactly the slots of that name into the value and keeps all other text and slots |
| SoftwareGenerator.FillTemplateSlots | skill-prompt-generator-main/core/software_generator.py:57-73 | filling a template replaces every `{language}`, `{framework}`, `{tool}` and `{feature}` slot (and the four fixed fillers) wherever it occurs, and keeps all other text and placeholders, when the values put in hold no `{` |
| SoftwareGenerator.GenerateMetadata | skill-prompt-generator-main/core/software_generator.py:28-88 | the result has type software, the determined role, the intent's task and language or their defaults, and the intent's framework unless it is the standard library, in which case the recommended one |
| SoftwareGenerator.GeneratePrompt | skill-prompt-generator-main/core/software_generator.py:38-77 | the prompt is the role description, then the task template filled with the recorded language and framework, the intent's tool and the raw input, then the raw input and the fixed constraints in that layout; without configuration the role description is the generic expert line |
| SoftwareGenerator.GenerateWithoutTask | skill-prompt-generator-main/core/software_generator.py:93-96 | an intent whose task is None raises TypeError |
| ElementTables.SeedDomainsKeys | skill-prompt-generator-main/element_db.py:150-171 | the seeded domain table holds exactly the seven domain ids, each once, each with no elements |
| ElementTables.CountsSnoc | skill-prompt-generator-main/element_db.py:340-362 | a new element adds one to the count of its own category and domain and leaves every other count alone |
| ElementTables.CountsPositive | skill-prompt-generator-main/element_db.py:340-362 | the category and domain of a stored element are counted at least once |
| ElementTables.AddUsageProps | skill-prompt-generator-main/element_db.py:314-338 | adding a tag list creates the tags not yet known and raises each tag's usage count by the number of times it is listed |
| ElementTables.AddUsageDistinct | skill-prompt-generator-main/element_db.py:314-338 | tagging with a list without repeats raises the count of each listed tag by one, whatever the list's order |
| ElementTables.SetOfSize | skill-prompt-generator-main/element_db.py:386 | the distinct tags of a list are at most as many as the list, and as many exactly when no tag is repeated |
| ElementTables.CarriesAllMeaning | skill-prompt-generator-main/element_db.py:379-389 | the AND search's count test holds exactly when the list is non-empty, repeats no tag, and the element carries every listed tag |
| ElementTables.TagSearchProps | skill-prompt-generator-main/element_db.py:364-400 | the tag search returns, in table order and each once, exactly the elements that carry any listed tag (OR) or all of them (AND) |
| ElementTables.MatchingMembers | skill-prompt-generator-main/element_db.py:421-430 | the WHERE clause keeps exactly the elements of the domain, of the category when one is given, and scoring at least the minimum when one is given |
| ElementTables.DomainSearchProps | skill-prompt-generator-main/element_db.py:402-439 | only matching elements come back, best score first with unscored ones last; without a positive limit all of them; with one, that many at most and no element left out scores above one returned |
| ElementLibrary.PutEntry | skill-prompt-generator-main/element_db.py:582 | assigning by name into the category dict keeps the other names and replaces a previous entry of the same name |
| ElementLibrary.IdsDetermine | skill-prompt-generator-main/element_db.py:68 | with element_id the primary key, an id determines its element |
| ElementLibrary.CategoryEntriesSound | skill-prompt-generator-main/element_db.py:573-583 | every exported entry of a category is the name and full view of an element of that domain and category |
| ElementLibrary.CategoryEntriesComplete | skill-prompt-generator-main/element_db.py:573-583 | when names are unique, every element of the domain and category is exported under its name |
| ElementLibrary.CategoriesInMembers | skill-prompt-generator-main/element_db.py:564-571 | the DISTINCT category query lists each category of the domain's elements once, and only those |
| ElementLibrary.CategoriesExportMembers | skill-prompt-generator-main/element_db.py:570-586 | a category is exported with exactly its entries, and every category with entries is exported |
| ElementLibrary.ExportedDomainsMembers | skill-prompt-generator-main/element_db.py:548-549 | a domain is exported exactly when it is in the domain table with a positive count, each once |
| ElementLibrary.FlatMembers | skill-prompt-generator-main/element_db.py:644-646 | walking the exported domains, categories and entries visits exactly their (domain, category, entry) triples |
| ElementLibrary.ExportedDomainsProps | skill-prompt-generator-main/element_db.py:548-562 | with counts kept up to date, an element's domain is exported exactly when it is one of the seven domains |
| ElementLibrary.ExportSound | skill-prompt-generator-main/element_db.py:520-603 | every exported entry is the view of a stored element of a seeded domain, under its own domain and category |
| ElementLibrary.ExportComplete | skill-prompt-generator-main/element_db.py:520-603 | with unique names, every stored element of a seeded domain is exported under its own domain and category |
| ElementLibrary.ImportedMembers | skill-prompt-generator-main/element_db.py:644-661 | importing new, valid and distinct entries adds exactly their views, and every imported id comes from an entry |
| ElementLibrary.RoundTrip | skill-prompt-generator-main/element_db.py:520-668 | importing an export into an empty store restores exactly the elements of the seeded domains, with their tags and tag links |
| ElementLibrary.RowsInPartition | skill-prompt-generator-main/element_db.py:564-583 | the rows walked over a domain's categories number exactly its elements |
| ElementLibrary.RowsAllIsDomainTotals | skill-prompt-generator-main/element_db.py:539-583 | the exported element total is the sum of the domains' element counts |
| ElementStore.Lookup | skill-prompt-generator-main/element_db.py:441-446 | an element is found exactly when its id is stored, and the found one has that id |
| ElementStore.ElementDB.constructor | skill-prompt-generator-main/element_db.py:22-35 | a new database is empty apart from the seven seeded domains, and valid |
| ElementStore.ElementDB.AddTagToElement | skill-prompt-generator-main/element_db.py:314-338 | the tag is created when new and its usage raised by one, the element is linked to it, and nothing else changes |
| ElementStore.ElementDB.UpdateCounts | skill-prompt-generator-main/element_db.py:340-362 | the category's and the domain's totals become their element counts when they exist, and nothing else changes |
| ElementStore.ElementDB.AddElement | skill-prompt-generator-main/element_db.py:173-250 | the insert succeeds exactly when the id is new and the score is within 0 to 10; a failure changes nothing; a success appends the element, creates its category when new, brings the counts up to date, records its tags and links, and keeps the database valid |
| ElementStore.ElementDB.TagElement | skill-prompt-generator-main/element_db.py:236-239 | the tag loop adds the whole list's usage and links and changes nothing else |
| ElementStore.ElementDB.SaveSourcePrompt | skill-prompt-generator-main/element_db.py:252-312 | a new prompt id is stored with its length and status completed; a known one has its extracted count raised and is marked completed; the element tables stay unchanged |
| ElementStore.ElementDB.GetElement | skill-prompt-generator-main/element_db.py:441-478 | nothing exactly when the id is unknown; otherwise the one element with that id and its tags |
| ElementStore.ElementDB.SearchByDomain | skill-prompt-generator-main/element_db.py:402-439 | the elements of the specified domain search, each with its tags |
| ElementStore.ElementDB.SearchByTags | skill-prompt-generator-main/element_db.py:364-400 | the elements of the specified tag search, each with its tags |
| ElementStore.ElementDB.ClearAllData | skill-prompt-generator-main/element_db.py:670-679 | every table is emptied except the domains, whose totals become zero, and the database stays valid |
| ElementStore.ElementDB.ExportCategory | skill-prompt-generator-main/element_db.py:573-583 | the loop over a category's rows builds its specified entries and counts its rows |
| ElementStore.ElementDB.CategoriesOf | skill-prompt-generator-main/element_db.py:564-568 | the DISTINCT query's categories of the domain in first-seen order |
| ElementStore.ElementDB.ExportDomain | skill-prompt-generator-main/element_db.py:553-586 | the domain's specified entry and the number of rows walked for it |
| ElementStore.ElementDB.ExportToJson | skill-prompt-generator-main/element_db.py:520-621 | the exported library is the specified export of the current tables |
| ElementStore.ElementDB.ImportOne | skill-prompt-generator-main/element_db.py:647-661 | one entry is added exactly when its id is new and its score valid, with its tag links and each of its tags' usage raised by one; on success the category row is created if missing and the totals recounted; on rejection the elements, tag links, usage counts, categories and domains are unchanged; the database stays valid |
| ElementStore.ElementDB.ImportFromJson | skill-prompt-generator-main/element_db.py:623-668 | after an optional clear, the elements and tag links are the base plus the specified import of the library's entries in order; source prompts are kept unless cleared |
| SkillsCli.EscapeLength | SkillsLM_APP/core/utils.py:9 | an escape sequence matched at the front starts with ESC, spans at least two characters and stays within the text |
| SkillsCli.StripAnsiNoEscape | SkillsLM_APP/core/utils.py:7-10 | a text without ESC comes back unchanged |
| SkillsCli.StripAnsiSubsequence | SkillsLM_APP/core/utils.py:7-10 | stripping only deletes characters: the result is a subsequence of the text |
| SkillsCli.StripAnsiNotIdempotent | SkillsLM_APP/core/utils.py:7-10 | a single pass can leave a new escape sequence behind: ESC ESC @ @ becomes ESC @, which a second pass removes |
| SkillsCli.Command | SkillsLM_APP/core/utils.py:18 | every command is `npx skills` followed by the arguments, unchanged |
| SkillsCli.InstallArgsRoundTrip | SkillsLM_APP/core/utils.py:146-154 | the install arguments start with `add` and the repository, and can be read back into the repository, the skill name when it is non-empty, and the global flag |
| SkillsCli.RemoveArgsRoundTrip | SkillsLM_APP/core/utils.py:156-161 | the remove arguments can be read back into the skill name and the scope flag |
| SkillsCli.CheckUpdates | SkillsLM_APP/core/utils.py:167-176 | no output reports no update with stderr; updates are reported exactly when the stripped output lacks the up-to-date message, and then with that output |
| SkillsCli.ListStepProps | SkillsLM_APP/core/utils.py:46-92 | a header, footer or empty line changes nothing; an Agents line sets the agents of the last skill only; a line of a valid name and a path-like rest appends one skill with that name, that rest as its path (expanded when it starts with `~`), agents None and the scope |
| SkillsCli.ListedSkillsProps | SkillsLM_APP/core/utils.py:46-92 | one skill per skill-creating line, each with a valid name and the requested scope, and a path that is path-like or the expansion of a path starting with `~` |
| SkillsCli.ListSkills | SkillsLM_APP/core/utils.py:28-94 | no output gives no skills and stderr; otherwise the skills the listing specifies for the ANSI-stripped lines, and no error |
| SkillsCli.ScanSkills | SkillsLM_APP/core/utils.py:46-92 | the loop over the lines computes the specified listing |
| SkillsCli.ScanLine | SkillsLM_APP/core/utils.py:53-92 | one pass of the loop performs the specified one-line step, and `current_skill` stays the last skill of the list (absent exactly while the list is empty) |
| SkillsCli.RepoStepWellFormed | SkillsLM_APP/core/utils.py:119-142 | one line keeps every skill of the repository with a valid name and never removes a skill |
| SkillsCli.RepoScanWellFormed | SkillsLM_APP/core/utils.py:110-142 | the scan keeps every skill well formed and never removes one |
| SkillsCli.RepoScanIgnoresPreamble | SkillsLM_APP/core/utils.py:112-117 | lines before the Available Skills heading have no effect |
| SkillsCli.RepoScanStops | SkillsLM_APP/core/utils.py:130-131 | a non-blank summary, hint or selection line ends the scan with the skills found so far |
| SkillsCli.GetRepoSkills | SkillsLM_APP/core/utils.py:96-144 | no output gives no skills and stderr; otherwise the skills the scan specifies for the ANSI-stripped lines, and no error |
| SkillsCli.RepoLine | SkillsLM_APP/core/utils.py:110-142 | one pass of the loop either breaks, with the scan then yielding the skills so far, or leaves a state from which the scan of the remaining lines yields the same result |
| SkillsCli.RepoAdd | SkillsLM_APP/core/utils.py:126-142 | a listed line appends a new skill or extends the last skill's description as the scan specifies, and `current_skill_name` is set exactly when some skill exists |
| SkillsCli.NumberedItem | SkillsLM_APP/core/utils.py:219-221 | a numbered item's text is a non-empty tail of the line after at least a digit, a dot and a space |
| SkillsCli.Sanitize | SkillsLM_APP/core/utils.py:240 | the sanitised text is no longer than the step and holds no double quote, semicolon or parenthesis |
| SkillsCli.Label | SkillsLM_APP/core/utils.py:240-241 | a label is at most 53 characters; a step of at most 50 characters is only sanitised; a longer one is cut and ends with an ellipsis |
| SkillsCli.MermaidProps | SkillsLM_APP/core/utils.py:236-249 | the chart starts with the graph header and holds the node block of every step |
| SkillsCli.SectionIgnoresPreamble | SkillsLM_APP/core/utils.py:209-213 | lines before a steps heading contribute no step |
| SkillsCli.NumberedStepsProps | SkillsLM_APP/core/utils.py:226-231 | every fallback step is the non-empty text of a numbered line of the document, and there are no more steps than lines |
| SkillsCli.SectionStepsOf | SkillsLM_APP/core/utils.py:205-224 | the loop computes the specified steps of the first steps section |
| SkillsCli.NumberedStepsOf | SkillsLM_APP/core/utils.py:226-231 | the loop computes the specified numbered-list fallback |
| SkillsCli.MermaidOf | SkillsLM_APP/core/utils.py:236-249 | the loop computes the specified chart text |
| SkillsCli.ExtractFlowchart | SkillsLM_APP/core/utils.py:200-249 | nothing exactly when neither the steps section nor the numbered lists give a step; otherwise the chart of those steps |
| SkillsUi.ParseAgents | SkillsLM_APP/components/ui.py:179-183 | a missing text, an empty one or the literal None gives no agents |
| SkillsUi.ParseAgentsCount | SkillsLM_APP/components/ui.py:179-183 | otherwise one agent per comma-separated piece, one more than the commas, and the pieces joined by commas give the text back |
| SkillsUi.ParseAgentsEntries | SkillsLM_APP/components/ui.py:179-183 | each agent is its piece stripped of surrounding whitespace, holds no comma and has no whitespace at either end |
| SkillsUi.ActiveTools | SkillsLM_APP/components/ui.py:244-248 | one badge per supported tool, in order, lit exactly when some agent, lower-cased, occurs in the lower-cased tool name |
| SkillsUi.ActiveExtremes | SkillsLM_APP/components/ui.py:246-248 | no agents light no tool, and an empty agent lights every tool |
| SkillsUi.TrailingCommaActivatesAll | SkillsLM_APP/components/ui.py:179-183 | an agents text with a trailing comma lights every supported tool |
| Sorting.SortDescProps | skill-prompt-generator-main/core/variable_sampler.py:303 | `ORDER BY … DESC` returns a permutation of the rows sorted by descending key |
| VariableSampler.OtherDrawProps | skill-prompt-generator-main/core/variable_sampler.py:202-209 | a boolean variable takes the style's `prefer_<name>` when present and otherwise any boolean; a variable of an unknown type takes its default |

## Left out

- SQLite connections, cursors, SQL text and transactions are not modelled. Tables are in-memory data with their WHERE, ORDER BY and LIMIT semantics; `LIKE` is SQLite's pattern match without ESCAPE (`%`, `_`, ASCII case folding). A rollback is modelled as the failed operation changing nothing.
- SQLite leaves the order of rows with equal sort keys unspecified. The model keeps such rows in table order.
- Tags are identified by their unique `tag_name`. The integer `tag_id`, `tag_type` and all `created_at`/`updated_at` timestamps are left out.
- NOT NULL and foreign-key constraints are not modelled. The only constraints kept are the primary keys and the `reusability_score` CHECK.
- `ElementDB.get_stats` and `close` are not modelled. They are reporting and connection handling.
- File and YAML/JSON I/O is not modelled; the loaded data is a parameter. This covers `FrameworkLoader.load`, `_load_yaml`, and the file halves of `export_to_json` and `import_from_json`. The JSON library is a typed value, so malformed JSON, missing keys and the import's generated fallback id are not modelled.
- ElementStore.ElementDB.ImportFromJson: flattens the import's three nested loops into one loop over the visiting order. It states the elements, tag links and source prompts afterwards. Tag usage counts and category rows are kept only through the `Valid` invariant; `ImportOne` states them for each single call.
- ElementStore.ElementDB.ExportToJson: the export's `exported_at` time and the library metadata texts are not modelled.
- The `elements` and `element_variables` lookups of the samplers and of the intelligent generator are functions over row sequences. The JSON decoding of stored columns is a decoded value given with the row.
- Distributions of `random.choice`, `randint` and `uniform`, and `round(…, 2)`, are not modelled. A uniform float draw is any float.
- `time.time()` history timestamps are left out.
- Python's `str()` of floats, lists and dicts is a parameter `repr`.
- Case mapping and whitespace are ASCII (plus the ASCII control characters `str.isspace` accepts). Python's Unicode `lower`, `strip` and `\d` digits are not modelled.
- `print` output and `__main__`/test blocks are not modelled.
- `run_command`'s `shutil.which`, `platform.system` and `subprocess.run` are not modelled. The command output is a parameter. `os.path.expanduser` is a function parameter.
- `open_file`, `save_file`, `update_skills`' command call, `create_skill_from_prompt` and `generate_testing_agent_skills` are not modelled. The same holds for the remaining helpers of SkillsLM_APP/core/utils.py (lines 298-479). They are file, process or network I/O.
- The Streamlit rendering of SkillsLM_APP/components/ui.py is not modelled. This covers `render_css` and everything in `render_skill_card` except the agents parsing and the active-tool rule.
- The Python regex engine is not modelled. The patterns used are hand-coded: the skill-name character set, the numbered-list prefix, the steps heading, and the ANSI grammar.
- `load_knowledge` keeps only the tables the modelled code reads. These are the typical eye and hair colours per ethnicity and the subject-attribute categories.
- `analyze_required_domains` converts a set to a list, so its order is unspecified. The model states membership only, and the query result takes its domains in an unspecified order.
- `resolve_conflicts` does not re-check the replacement eye element. So no "no blue or green eyes after repair" guarantee is stated; the replacement is stated to be the category's lookup result.
- The database half of `save_generated_prompt` is not modelled; only the running quality average per element is.
- CrossDomainGenerator.Additions: element ids are compared with structural equality rather than Python's `==`; they are the text primary keys of the elements table (or None when absent), for which the two agree.
