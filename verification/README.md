# Luna: the real-estate chat widget, in Dafny

This project models the browser-side core of a real-estate site for the
Porto Alegre metropolitan region. Its chat assistant, "Luna", reads
Portuguese free text, builds a lead record, plans its next question,
summarises the search and hands filters to a listing page. The listing page
filters the catalogue and runs a short refinement sidebar. A separate
keyword search ranks a small demo catalogue.

The modules follow the source files:

| module | source | what it holds |
|---|---|---|
| `Json` | (shared) | JavaScript values: null, booleans, numbers, strings, arrays, objects; truthiness; reads along paths |
| `Text` | (shared) | lower-casing, `includes`, `trim`, `split`/`join`, UTF-16 length, decimal digits, leftmost-match search |
| `Money` | `lead-capture.js`, `criteria-extractor.js` | the amount patterns (`N mil`, `N milhões`, ranges) read as exact decimals |
| `LeadLanguage` | `assets/js/ai/lead-capture.js` | `processNaturalLanguage`: one answer becomes a patch of the lead record |
| `LeadCapture` | `assets/js/ai/lead-capture.js` | `mergeData`, `setNestedField`, the quality score, `formatBudget`, the step table and `processNextStep`, the validations, `saveAnswer`, `resetChat` |
| `ConversationEngine` | `assets/js/ai/conversation-engine.js` | topics, context, `decideNextQuestion`, the conversation memory, `buildSearchFilters` |
| `CriteriaExtractor` | `assets/js/ai/criteria-extractor.js` | `extractAllCriteria`, with amenities and the intensity they were asked for |
| `ConfirmationFlow` | `assets/js/ai/confirmation-flow.js` | `generateStructuredSummary` and its `formatCurrency` |
| `Sidebar` | `assets/js/ai/sidebar.js` | the refinement questions, their acknowledgments and the `features` filter |
| `ListingFilter` | `assets/js/imoveis/filter.js` | the listing filter and the narrower results counter |
| `Catalogue` | `assets/js/imoveis/database-expanded.js` | `createImovel`, its id counter, the combined catalogue and the default operation |
| `AISearch` | `ai-search.js` | `processAIQuery` (narrow, score, sort), `generateInterpretation`, the guided chat |

The state the widget changes in place is modelled as classes:

- `LeadCapture.Chat` holds the lead record, the answers and the step cursor.
- `ConversationEngine.Conversation` holds the conversation memory.
- `Sidebar.SidebarState` holds the questions asked, the current question and a transcript of the sidebar.
- `Catalogue.IdCounter` holds `currentId`.
- `AISearch.Listing` objects carry a mutable `matchScore`. The ranking sorts an array of them in place.
- `AISearch.AIChat` holds the guided chat's step and answers.

The rest is datatypes and functions.

The model keeps the code's behaviour where it is surprising:

- A singular "milhão" yields no budget in `processNaturalLanguage`. The million test `milh[oõ]es?` needs the `e` of the plural, so "milhão" and "milho" both fail it. The `mil` inside "milhão" fails the `\b` of the thousand pattern (`LeadLanguage.SingularMillionIgnored`).
- In `extractAllCriteria` a range in "milhões" is scaled by a thousand. The unit test looks for "milhão", which the plural does not contain (`CriteriaExtractor.RangeScalesByThousand`).
- The household words override an explicit count: "3 quartos para o casal" asks for two bedrooms (`LeadLanguage.HouseholdOverridesCount`).
- `mergeData` concatenates arrays. It overwrites with `null`. An object merged onto a truthy primitive is lost (`LeadCapture.MergeOntoPrimitive`).
- The type question of the guided chat in `ai-search.js` is never asked. The cursor starts at 2 and moves before a question is shown (`AISearch.TypeQuestionNeverAsked`).
- In `processAIQuery`, "casal" also matches the keyword "casa". A couple's query therefore keeps only houses (`AISearch.CoupleQueryKeepsHouses`).
- The interpretation's price unit is always "mil", in the letter case the user typed. The alternation tries `mil` before `milhão` (`AISearch.PriceUnitIsMil`).
- The "até N" price bonus reads N as thousands (`AISearch.PriceCap`).
- `formatCurrency` writes two million as "2 milhãoões" (`ConfirmationFlow.TwoMillions`).
- `decideNextQuestion` closes on a weaker test than the context's `isComplete` (`ConversationEngine.CompleteIsEnough`).

## Model

| member | source | states |
|---|---|---|
| `Json.Get2At` | assets/js/ai/lead-capture.js:338 | reading `a?.b` is reading the path `[a, b]` |
| `Text.Capitalize` | assets/js/ai/confirmation-flow.js:40 | the first character upper-cased, the rest unchanged, the length kept |
| `Text.IndexOf` | assets/js/ai/criteria-extractor.js:209 | `indexOf` is the first occurrence, or -1 when there is none |
| `Text.Trim` | assets/js/ai/sidebar.js:148 | `trim()` is a slice with no whitespace at either end, and it removes only whitespace |
| `Text.Utf16Length` | assets/js/ai/lead-capture.js:1047 | `length` counts characters outside the BMP twice, so it is at least the character count |
| `Text.Utf16Append` | assets/js/ai/criteria-extractor.js:210 | the `length` of a concatenation is the sum of the lengths |
| `Text.Utf16Lower` | assets/js/ai/criteria-extractor.js:209-211 | `toLowerCase()` keeps the `length`, so positions found in the lower-cased text hold in the original |
| `Text.UnitSliceAppend` | assets/js/ai/criteria-extractor.js:211 | `substring` of a concatenation is the two parts' substrings, the second shifted by the first part's length |
| `Text.UnitSliceWhole` | assets/js/ai/criteria-extractor.js:211 | `substring` over a range that covers every unit gives the whole text |
| `Text.UnitSliceSize` | assets/js/ai/criteria-extractor.js:211 | `substring(a, b)` is at most `b - a` units long, and empty when the range is |
| `Text.UnitSliceBmp` | assets/js/ai/criteria-extractor.js:211 | on text inside the BMP, `substring` is the slice of characters `[a, b)` |
| `Text.Split` | assets/js/ai/lead-capture.js:1027 | `split` never gives an empty list, and no piece holds the separator |
| `Text.SplitCount` | assets/js/ai/lead-capture.js:1080 | a split has one piece more than the text has separators |
| `Text.SplitJoin` | assets/js/ai/lead-capture.js:1080 | splitting a join of separator-free parts gives the parts back |
| `Text.JoinSplit` | assets/js/ai/confirmation-flow.js:131 | joining the pieces of a split gives the text back |
| `Text.DigitsOf` | assets/js/ai/lead-capture.js:890 | `replace(/\D/g, '')` keeps the digits in order and nothing else |
| `Text.ParseShowNat` | assets/js/ai/confirmation-flow.js:143 | a whole number written in decimal reads back as itself |
| `Text.Tagged` | assets/js/ai/sidebar.js:193-209 | a tag is pushed exactly when one of its words occurs, in the order of the chain of tests |
| `Text.Leftmost` | assets/js/ai/lead-capture.js:888 | `match` returns what the pattern gives at the first position where it succeeds |
| `Money.DecimalAt` | assets/js/ai/lead-capture.js:811 | `\d+(?:[.,]\d+)?` matches exactly where a digit is, and reads a well-formed decimal |
| `Money.Scale` | assets/js/ai/lead-capture.js:813-814 | `parseFloat` of the number, comma read as a point, times the unit, as a whole number |
| `Money.ScaleWhole` | assets/js/ai/lead-capture.js:813-814 | a whole number times the unit is exact |
| `Money.ThousandAt` | assets/js/ai/lead-capture.js:819 | the thousand pattern tried at one position: a number, spaces, then `mil` or `k` ending a word |
| `Money.FirstThousand` | assets/js/ai/lead-capture.js:819 | the number of the leftmost thousand match |
| `Money.MillionAt` | assets/js/ai/lead-capture.js:811 | the million pattern tried at one position: a number, spaces, then `milh[oõ]e` or `mílh[oõ]e` |
| `Money.FirstMillion` | assets/js/ai/lead-capture.js:811 | the number of the leftmost million match |
| `Money.FirstThousandIs` | assets/js/ai/lead-capture.js:819 | the thousand amount is the one at the first position where the pattern matches |
| `Money.FirstMillionIs` | assets/js/ai/lead-capture.js:811 | the million amount is the one at the first position where a number is followed by `milh[oõ]e` (or `mílh[oõ]e`) |
| `Money.MillionWordEnd` | assets/js/ai/lead-capture.js:828 | greedy `milh[oõ]es?` ends after the `e`, or after the `s` when one follows |
| `Money.MilhoCapturesMil` | assets/js/ai/criteria-extractor.js:139 | "milho" is no million word, and the unit captured there is `mil`; "milhões" is captured whole |
| `Money.RangeAt` | assets/js/ai/lead-capture.js:828 | the range pattern tried at one position: a number, a separator `a`, `até` or `-`, a number and the unit |
| `Money.FirstRange` | assets/js/ai/lead-capture.js:828-843 | the leftmost range match, for the million unit or the thousand unit |
| `Money.FirstRangeIs` | assets/js/ai/lead-capture.js:828 | the range is the one at the first position where the pattern matches; a range of millions ends in `milh[oõ]e` |
| `Money.UnitCapture` | assets/js/ai/criteria-extractor.js:139 | the unit captured is the text at that position; without the `e` the alternation falls through to `mil` |
| `Money.NoRangesWithoutSeparator` | assets/js/ai/lead-capture.js:828-843 | a text with no `a` or `-` after its first character holds no range of either unit |
| `Money.NoMillionWordWithoutH` | assets/js/ai/lead-capture.js:807 | a text without an `h` has no plural million word |
| `LeadLanguage.MentionsMoney` | assets/js/ai/lead-capture.js:804 | the budget rule's money test: `mil`, `milhão`, `reais` or `r$` occurs in the lower-cased answer |
| `LeadLanguage.SingleBudget` | assets/js/ai/lead-capture.js:807-825 | a single amount is a patch `{ max }` and nothing else; the million pattern is tried only when `milh[oõ]e` occurs |
| `LeadLanguage.BudgetOf` | assets/js/ai/lead-capture.js:804-845 | a budget is read only for the budget question or when money is mentioned, and it always has a `max` |
| `LeadLanguage.ThousandPhrase` | assets/js/ai/lead-capture.js:819-823 | "até N mil" is a maximum of N thousand |
| `LeadLanguage.MillionsPhrase` | assets/js/ai/lead-capture.js:807-816 | "até N milhões" is a maximum of N million |
| `LeadLanguage.SingularMillionIgnored` | assets/js/ai/lead-capture.js:807-825 | "até N milhão" yields no budget at all |
| `LeadLanguage.NoPluralBeforeA` | assets/js/ai/lead-capture.js:807 | a text whose only `h` is followed by `ã` has no plural million word |
| `LeadLanguage.NoThousandWordBeforeH` | assets/js/ai/lead-capture.js:819 | "N milhão" or "N milho" has no thousand amount: its `mil` is glued to the `h` |
| `LeadLanguage.NoStemNearEnd` | assets/js/ai/lead-capture.js:807 | a text whose every `h` has fewer than three characters after it has no plural million word |
| `LeadLanguage.MilhoIgnored` | assets/js/ai/lead-capture.js:804-845 | "até N milho" fails the million test and yields no budget at all |
| `LeadLanguage.ThousandRangePhrase` | assets/js/ai/lead-capture.js:836-842 | "A a B mil" is a range from A to B thousand |
| `LeadLanguage.RangeShapeMatch` | assets/js/ai/lead-capture.js:828-843 | a text shaped "A a B mil" holds a range of thousands from its two numbers and no range of millions |
| `LeadLanguage.RangeShapeNoMillions` | assets/js/ai/lead-capture.js:828-829 | such a text matches no range of millions |
| `LeadLanguage.PropertyTypeOf` | assets/js/ai/lead-capture.js:849-852 | the type of the first keyword group that matches (apartment, house, studio, penthouse), or empty when none does |
| `LeadLanguage.PropertyTypePatch` | assets/js/ai/lead-capture.js:848-853 | a type is one of the four kinds |
| `LeadLanguage.ApartmentWordsReduce` | assets/js/ai/lead-capture.js:849 | `apartamento\|apto\|ap` matches exactly when `ap` does |
| `LeadLanguage.PenthouseWordsReduce` | assets/js/ai/lead-capture.js:852 | `cobertura\|cobert` matches exactly when `cobert` does |
| `LeadLanguage.PropertyTypePrecedence` | assets/js/ai/lead-capture.js:849-852 | each of the five outcomes happens exactly when its group matches and no earlier group does; any `ap` means an apartment |
| `LeadLanguage.NumberWordAt` | assets/js/ai/lead-capture.js:858-861 | a number word reads as 1 to 5 |
| `LeadLanguage.ExplicitBedrooms` | assets/js/ai/lead-capture.js:857-862 | an explicit count is positive, or `null` for a count of 0 |
| `LeadLanguage.HouseholdBedrooms` | assets/js/ai/lead-capture.js:865-867 | a household word gives 1 to 3 bedrooms |
| `LeadLanguage.BedroomsPatch` | assets/js/ai/lead-capture.js:856-868 | bedrooms are read only for the bedrooms question or while none are known, and are positive or `null` |
| `LeadLanguage.CountAtStart` | assets/js/ai/lead-capture.js:857-861 | "D quartos..." reads D, with 0 read as `null` |
| `LeadLanguage.ExplicitCountPhrase` | assets/js/ai/lead-capture.js:857-861 | "N quartos" asks for N bedrooms |
| `LeadLanguage.NoHouseholdInCount` | assets/js/ai/lead-capture.js:865-867 | "D quartos" names no household |
| `LeadLanguage.HouseholdOverridesCount` | assets/js/ai/lead-capture.js:864-867 | "N quartos para o casal" asks for two bedrooms, whatever N is |
| `LeadLanguage.CoupleOverride` | assets/js/ai/lead-capture.js:866 | "casal" after a count reads as a household of two |
| `LeadLanguage.TimelineOf` | assets/js/ai/lead-capture.js:872-882 | `when` and `urgency` of the first of the five timeline rules that matches, or none |
| `LeadLanguage.TimelinePatch` | assets/js/ai/lead-capture.js:871-883 | a timeline is read only for its question or while none is known; its urgency is high exactly for the two nearest horizons |
| `LeadLanguage.PhoneBodyAt` | assets/js/ai/lead-capture.js:888 | a phone body spans at least eight characters |
| `LeadLanguage.PhoneAt` | assets/js/ai/lead-capture.js:888 | a phone match is a non-empty span of the text |
| `LeadLanguage.PhoneDigits` | assets/js/ai/lead-capture.js:888-890 | what is kept of a phone match is digits only |
| `LeadLanguage.PhonePatch` | assets/js/ai/lead-capture.js:886-899 | a phone is stored exactly when the rule runs and the match has 10 or 11 digits or a messenger is named, and it is those digits |
| `LeadLanguage.PhoneBodyDigits` | assets/js/ai/lead-capture.js:888 | a phone body holds 8 to 10 digits |
| `LeadLanguage.AreaPhoneDigits` | assets/js/ai/lead-capture.js:888 | an area code and a body hold 10 to 12 digits |
| `LeadLanguage.PhoneAtDigits` | assets/js/ai/lead-capture.js:888-890 | a phone match holds 8 to 12 digits |
| `LeadLanguage.PhoneDigitsLength` | assets/js/ai/lead-capture.js:888-898 | the digits kept number 8 to 12, so a messenger mention can store 8, 9 or 12 digits |
| `LeadLanguage.LastDot` | assets/js/ai/lead-capture.js:904 | the domain gives back the last dot that two letters follow |
| `LeadLanguage.EmailAt` | assets/js/ai/lead-capture.js:904 | an e-mail match is a non-empty span of the text |
| `LeadLanguage.EmailShape` | assets/js/ai/lead-capture.js:904 | an e-mail match is a local part, `@`, a domain, `.` and at least two letters, each part from its character class |
| `LeadLanguage.FirstEmail` | assets/js/ai/lead-capture.js:904-906 | the e-mail kept is a match of the pattern, as written |
| `LeadLanguage.EmailPatch` | assets/js/ai/lead-capture.js:903-907 | an e-mail is stored exactly when the rule runs and one is found |
| `LeadLanguage.PrimaryMotivation` | assets/js/ai/lead-capture.js:912-923 | the primary motivation of the first of the five motivation rules that matches, or none |
| `LeadLanguage.HighRent` | assets/js/ai/lead-capture.js:926 | `aluguel.*caro` or `muito.*pagar`: the first word followed later by the second |
| `LeadLanguage.LackOfSpace` | assets/js/ai/lead-capture.js:929 | `pequeno`, `espaço` or `apertado` occurs |
| `LeadLanguage.MotivationPatch` | assets/js/ai/lead-capture.js:911-933 | a motivation is read only for the motivation questions; `painPoints` is set exactly when lack of space is said |
| `LeadLanguage.ExperiencePatch` | assets/js/ai/lead-capture.js:911-914 | `experience: { firstTime: true }` when a motivation question is answered with a first-home word |
| `LeadLanguage.RentPainPatch` | assets/js/ai/lead-capture.js:926-928 | `currentSituation: { painPoints: ['high_rent'] }` when a motivation question mentions high rent |
| `LeadLanguage.PaymentPatch` | assets/js/ai/lead-capture.js:936-945 | a payment method is read only for the payment question |
| `LeadLanguage.FirstCity` | assets/js/ai/lead-capture.js:967-972 | the city is the canonical name of the first table entry found, and none is found only when no entry occurs |
| `LeadLanguage.CityFallback` | assets/js/ai/lead-capture.js:975-985 | a free city phrase is kept only when it is 3 to 29 UTF-16 units long and not a common word |
| `LeadLanguage.LocationPatch` | assets/js/ai/lead-capture.js:948-986 | a location is read only for the location question or when a city word is mentioned |
| `LeadLanguage.LocationFeatures` | assets/js/ai/lead-capture.js:989-994 | at most two must-have features, and only under the location rule |
| `LeadLanguage.LivingPatch` | assets/js/ai/lead-capture.js:998-1006 | for the living question only: renting, owning or with family, by the first word group found |
| `LeadLanguage.DecisionMakersPatch` | assets/js/ai/lead-capture.js:1009-1017 | for the decision-makers question only: alone, partner or family, by the first word group found |
| `LeadLanguage.ProcessNaturalLanguage` | assets/js/ai/lead-capture.js:797-1020 | a non-string or empty answer yields `{}`, and every key of a patch is a key of the lead record |
| `LeadLanguage.ProfilePatch` | assets/js/ai/lead-capture.js:847-908 | the property and contact rules write only their own keys; the budget entry is `BudgetOf`'s |
| `LeadLanguage.ContextPatch` | assets/js/ai/lead-capture.js:910-1017 | the motivation, payment, living and decision rules write only their own keys |
| `LeadLanguage.WherePatch` | assets/js/ai/lead-capture.js:947-995 | the location rule writes only `location` and `mustHaveFeatures` |
| `LeadCapture.SpreadOf` | assets/js/ai/lead-capture.js:1069 | spreading an array gives its items, and a string its characters |
| `LeadCapture.MergeValue` | assets/js/ai/lead-capture.js:1064-1071 | one key of `mergeData`: an array source is spread after the target's items, an object source is merged into the target's object, anything else overwrites |
| `LeadCapture.MergeMap` | assets/js/ai/lead-capture.js:1062-1073 | `mergeData(target, source)` as a value: every source key merged into the target in turn |
| `LeadCapture.MergeKeys` | assets/js/ai/lead-capture.js:1062-1073 | the merged record has the keys of both, and keys the source lacks are untouched |
| `LeadCapture.MergeOverwrites` | assets/js/ai/lead-capture.js:1070-1071 | a primitive of the source, `null` included, overwrites the target |
| `LeadCapture.MergeConcatenates` | assets/js/ai/lead-capture.js:1067-1069 | an array of the source is appended to the target's array |
| `LeadCapture.MergeNested` | assets/js/ai/lead-capture.js:1064-1066 | an object of the source is merged into the target's object, keeping its other keys |
| `LeadCapture.MergeOntoPrimitive` | assets/js/ai/lead-capture.js:1065-1066 | an object merged onto a truthy primitive leaves the primitive |
| `LeadCapture.MergeReadsSource` | assets/js/ai/lead-capture.js:1062-1073 | after a merge, every leaf of the source reads back from the target |
| `LeadCapture.MergeEmpty` | assets/js/ai/conversation-engine.js:335-338 | merging `{}` changes nothing, so the guard on an empty patch can be dropped |
| `LeadCapture.MergeStep` | assets/js/ai/lead-capture.js:1063-1073 | one more key of the loop merges that key into the result of the earlier ones |
| `LeadCapture.MergeData` | assets/js/ai/lead-capture.js:1062-1074 | the key-by-key loop computes the deep merge |
| `LeadCapture.SetPathMap` | assets/js/ai/lead-capture.js:1079-1087 | `setNestedField` as a value: walk the keys, creating `{}` where a key is missing, and write the value at the last key |
| `LeadCapture.EmptyPathOpen` | assets/js/ai/lead-capture.js:1079-1087 | a path can always be written into an empty object |
| `LeadCapture.SetPathReadBack` | assets/js/ai/lead-capture.js:1079-1087 | after `setNestedField` the value reads back at its path, with objects along the way |
| `LeadCapture.SetPathKeepsSiblings` | assets/js/ai/lead-capture.js:1079-1087 | at every level of the path, the keys beside the one followed keep their values, and no other key appears |
| `LeadCapture.SetPathBelowPrimitive` | assets/js/ai/lead-capture.js:1083-1086 | a write below a truthy primitive is lost |
| `LeadCapture.SplitPlain` | assets/js/ai/lead-capture.js:1080 | a key without dots is a one-key path |
| `LeadCapture.SplitAfterPlain` | assets/js/ai/lead-capture.js:1080 | a dotted field splits into its first key and the rest |
| `LeadCapture.SplitJoin` | assets/js/ai/lead-capture.js:1080 | a dotted field splits back into its keys |
| `LeadCapture.Signals` | assets/js/ai/lead-capture.js:1095-1113 | the ten checks of the score |
| `LeadCapture.Signal` | assets/js/ai/lead-capture.js:1095-1113 | the ten checks of `updateQualityScore`, one by position |
| `LeadCapture.Points` | assets/js/ai/lead-capture.js:1092-1116 | the weights of the checks that hold, added up |
| `LeadCapture.QualityScore` | assets/js/ai/lead-capture.js:1092-1117 | the score never exceeds 100 |
| `LeadCapture.ScoreIsPoints` | assets/js/ai/lead-capture.js:1092-1117 | the score is the capped sum of the weights of the checks that pass |
| `LeadCapture.PointsAtMostSum` | assets/js/ai/lead-capture.js:1093-1116 | points reach the sum of the weights exactly when every weighted check passes, and 0 exactly when none does |
| `LeadCapture.PointsMonotone` | assets/js/ai/lead-capture.js:1093-1116 | passing more checks never lowers the points |
| `LeadCapture.WeightsFacts` | assets/js/ai/lead-capture.js:1095-1115 | the weights are positive and add up to 100 |
| `LeadCapture.SignalPoints` | assets/js/ai/lead-capture.js:1095-1116 | the points are at most 100, exactly 100 when all checks pass, 0 when none does |
| `LeadCapture.ScoreUncapped` | assets/js/ai/lead-capture.js:1116 | the cap at 100 never bites |
| `LeadCapture.ScoreExtremes` | assets/js/ai/lead-capture.js:1092-1117 | the score is 100 exactly when every check passes, and 0 exactly when none does |
| `LeadCapture.ScoreMonotone` | assets/js/ai/lead-capture.js:1092-1117 | a lead that passes more checks scores at least as much |
| `LeadCapture.ScoreWrittenOut` | assets/js/ai/lead-capture.js:1092-1117 | the score is the ten conditional additions of the code, capped at 100 |
| `LeadCapture.FormatBudget` | assets/js/ai/lead-capture.js:1380-1394 | the currency form is used exactly when an exact amount is set |
| `LeadCapture.BudgetNotInformed` | assets/js/ai/lead-capture.js:1380-1394 | "Não informado" is shown exactly when the score has no budget points |
| `LeadCapture.KiloOfThousands` | assets/js/ai/lead-capture.js:1388 | a whole number of thousands is shown as that number before "k" |
| `LeadCapture.MaxBudgetShown` | assets/js/ai/lead-capture.js:1387-1389 | "até N mil", once read, is shown as "Até R$ Nk" |
| `LeadCapture.StepAt` | assets/js/ai/lead-capture.js:131-445 | the 22 steps of `leadCaptureFlow` in order: id, kind, field, whether the answer is read as natural language, the validation and the skip rule |
| `LeadCapture.Skip` | assets/js/ai/lead-capture.js:188-444 | each step's `skipIf()` on the current lead, a step without one never skipped |
| `LeadCapture.FindIndex` | assets/js/ai/lead-capture.js:683 | `findIndex` is the first step with the id, or -1 when none has it |
| `LeadCapture.PhoneStepIndex` | assets/js/ai/lead-capture.js:365 | the phone step is step 15 of the table |
| `LeadCapture.FlowPhoneStep` | assets/js/ai/lead-capture.js:365-377 | the phone step is skipped only when a phone is known |
| `LeadCapture.Advance` | assets/js/ai/lead-capture.js:663-718 | the cursor stays on the table, and a question asked is the step under the cursor |
| `LeadCapture.AdvanceAsksUnskipped` | assets/js/ai/lead-capture.js:703-709 | a step is asked only if its `skipIf` is false, or it is the phone step jumped back to; every step passed over was skipped |
| `LeadCapture.AdvanceForward` | assets/js/ai/lead-capture.js:675-696 | the cursor moves forward, except at the end or when it jumps back to the phone step for a lead without a phone |
| `LeadCapture.AdvanceFinishes` | assets/js/ai/lead-capture.js:676-691 | the chat finishes exactly when a phone is known and every remaining step is skipped |
| `LeadCapture.AdvanceReachesPhone` | assets/js/ai/lead-capture.js:682-687 | a lead without a phone is asked a question no later than the phone step |
| `LeadCapture.WalkFlow` | assets/js/ai/lead-capture.js:670-713 | the do-while loop computes the step the table reaches |
| `LeadCapture.ValidName` | assets/js/ai/lead-capture.js:154 | the name step's validation: at least two UTF-16 units |
| `LeadCapture.ValidPhone` | assets/js/ai/lead-capture.js:369 | the phone step's validation: only digits, spaces and `()-+`, and at least ten digits |
| `LeadCapture.ValidEmail` | assets/js/ai/lead-capture.js:385 | the e-mail step's validation: empty, or one `@` with text before it and a dot with text on both sides after it, no spaces |
| `LeadCapture.Accepts` | assets/js/ai/lead-capture.js:1214 | a typed answer passes when its step has no validation or passes it |
| `LeadCapture.ExtractedPhoneAccepted` | assets/js/ai/lead-capture.js:369 | a phone the reader stores without a messenger mention passes the phone step's validation |
| `LeadCapture.ValidEmailIntro` | assets/js/ai/lead-capture.js:385 | a space-free text with one `@` and a later dot with text around both is a valid e-mail |
| `LeadCapture.ExtractedEmailAccepted` | assets/js/ai/lead-capture.js:385 | an e-mail the reader extracts passes the e-mail step's validation |
| `LeadCapture.EmailSpanValid` | assets/js/ai/lead-capture.js:904 | every e-mail match passes the e-mail step's validation |
| `LeadCapture.EmailSpanParts` | assets/js/ai/lead-capture.js:904 | an e-mail match has its `@` and its dot in place, and no space and no other `@` |
| `LeadCapture.PatchOfAnswer` | assets/js/ai/lead-capture.js:797-1020 | every patch the reader produces has the shape the lead record expects |
| `LeadCapture.PatchMergeable` | assets/js/ai/lead-capture.js:1048-1051 | merging such a patch into a shaped lead never meets an array where an object is expected |
| `LeadCapture.PatchKeepsShape` | assets/js/ai/lead-capture.js:1048-1051 | merging such a patch keeps the lead record's shape |
| `LeadCapture.EmptyLead` | assets/js/ai/lead-capture.js:553-575 | the `leadData` record `resetChat` writes: every field null, empty or false, the groups as empty objects, score and counter 0 |
| `LeadCapture.EmptyLeadShaped` | assets/js/ai/lead-capture.js:553-575 | the reset record has the shape every reader of the record expects |
| `LeadCapture.EmptyLeadContact` | assets/js/ai/lead-capture.js:554-556 | a reset lead has no name, phone or e-mail |
| `LeadCapture.EmptyLeadAmounts` | assets/js/ai/lead-capture.js:562 | a reset lead has no budget amount |
| `LeadCapture.EmptyLeadAnswers` | assets/js/ai/lead-capture.js:563-565 | a reset lead has no payment, timeline or motivation |
| `LeadCapture.EmptyLeadScore` | assets/js/ai/lead-capture.js:570 | a reset lead scores 0 and shows "Não informado" |
| `LeadCapture.FlowPathsSafe` | assets/js/ai/lead-capture.js:131-445 | every question's field is a path that can be written into a shaped lead |
| `LeadCapture.FlowKeysDotFree` | assets/js/ai/lead-capture.js:131-445 | the keys of every field are free of dots |
| `LeadCapture.QuestionPath` | assets/js/ai/lead-capture.js:1027 | every question's dotted field splits back into its keys |
| `LeadCapture.SafeWriteShaped` | assets/js/ai/lead-capture.js:1044 | writing an answer at a question's field keeps the lead's shape |
| `LeadCapture.SaveKeepsShape` | assets/js/ai/lead-capture.js:1025-1057 | `saveAnswer` keeps the lead record's shape |
| `LeadCapture.MergeKeepsCounter` | assets/js/ai/lead-capture.js:1047-1056 | the merged patch never touches the answer counter |
| `LeadCapture.ScoreThenCount` | assets/js/ai/lead-capture.js:1055-1056 | after saving, the score is that of the merged lead and the counter is one more |
| `LeadCapture.CountersApart` | assets/js/ai/lead-capture.js:1092-1117 | the score does not depend on the score or the counter fields |
| `LeadCapture.ScoreIgnoresCounter` | assets/js/ai/lead-capture.js:1092-1117 | changing the score or the counter field leaves the score unchanged |
| `LeadCapture.ScoreReadsSevenFields` | assets/js/ai/lead-capture.js:1096-1113 | two leads that agree on the seven fields the score reads score the same |
| `LeadCapture.SaveReadsBack` | assets/js/ai/lead-capture.js:1044-1052 | the answer reads back at its field, unless a long answer's patch writes the same group |
| `LeadCapture.AnswerWrite` | assets/js/ai/lead-capture.js:1027-1033 | the answers object takes the write and keeps holding no arrays |
| `LeadCapture.WriteAnswer` | assets/js/ai/lead-capture.js:1043-1052 | the answer is written at its path, the reader's patch merged in, and the shape kept |
| `LeadCapture.SaveAnswerTo` | assets/js/ai/lead-capture.js:1025-1057 | the lead after `saveAnswer` is written, merged, scored and counted, and the answers take the value at its path |
| `LeadCapture.Chat.constructor` | assets/js/ai/lead-capture.js:541-576 | a chat starts from the reset record, no answers and the cursor before the first step |
| `LeadCapture.Chat.ResetChat` | assets/js/ai/lead-capture.js:541-576 | the record, the answers and the cursor are reset |
| `LeadCapture.Chat.UpdateQualityScore` | assets/js/ai/lead-capture.js:1092-1117 | only the score field changes, to the score of the lead |
| `LeadCapture.Chat.SaveAnswer` | assets/js/ai/lead-capture.js:1025-1057 | the lead and the answers become what `saveAnswer` writes, and the cursor stays |
| `LeadCapture.Chat.ProcessNextStep` | assets/js/ai/lead-capture.js:663-718 | with the engine active nothing happens; otherwise the cursor and the outcome are those of the walk over the table |
| `ConversationEngine.ExtractTopics` | assets/js/ai/conversation-engine.js:54-88 | a topic is found exactly when one of its words occurs in a non-empty text |
| `ConversationEngine.TypeTopicIsAp` | assets/js/ai/conversation-engine.js:61-64 | the type topic is found exactly when `ap` or another type word occurs |
| `ConversationEngine.AnalyzeContext` | assets/js/ai/conversation-engine.js:21-49 | the budget flag is set exactly when a budget amount is known; with no last message the text is empty and has no topics |
| `ConversationEngine.IsComplete` | assets/js/ai/conversation-engine.js:45-46 | `isComplete`: type, budget or location known, and bedrooms, motivation or timeline known |
| `ConversationEngine.EnoughInfo` | assets/js/ai/conversation-engine.js:271-272 | `hasEnoughInfo`: type, budget, location, bedrooms or motivation known |
| `ConversationEngine.CompleteIsEnough` | assets/js/ai/conversation-engine.js:271-272 | a complete context is enough to close, but bedrooms alone are enough without being complete |
| `ConversationEngine.Amount` | assets/js/ai/conversation-engine.js:93-123 | the engine's `formatCurrency` on a truthy amount: numbers as `ConfirmationFlow.FormatCurrency`, the rest through the parameter |
| `ConversationEngine.CloseMessage` | assets/js/ai/conversation-engine.js:296-302 | "Perfeito! Entendi que você busca" and the details joined by ", ", or "Perfeito! " alone, then the fixed closing sentence |
| `ConversationEngine.CloseDetails` | assets/js/ai/conversation-engine.js:279-294 | at most four details, and none exactly when nothing of type, bedrooms, amount or location is known |
| `ConversationEngine.BudgetQuestion` | assets/js/ai/conversation-engine.js:247-253 | the gentle budget question, naming the property type when it is known |
| `ConversationEngine.HistoryMentionsMoney` | assets/js/ai/conversation-engine.js:240-243 | the user messages, lower-cased and joined by spaces, mention `mil`, `milhão`, `reais` or `r$` |
| `ConversationEngine.BudgetDue` | assets/js/ai/conversation-engine.js:243 | the budget is asked when it is unknown, not just mentioned and never mentioned before |
| `ConversationEngine.DecideNextQuestion` | assets/js/ai/conversation-engine.js:235-319 | the budget is asked exactly when due; otherwise the chat closes exactly when there is enough information; otherwise it asks for more context |
| `ConversationEngine.HistoryMentionsMoneyEach` | assets/js/ai/conversation-engine.js:240-245 | the joined history mentions money exactly when one user message does |
| `ConversationEngine.NoBudgetAfterMoney` | assets/js/ai/conversation-engine.js:245 | once any user message has mentioned money, the budget is never asked |
| `ConversationEngine.UserTexts` | assets/js/ai/conversation-engine.js:240 | the user texts are at most the messages |
| `ConversationEngine.UserTextsAppend` | assets/js/ai/conversation-engine.js:240 | one more message adds its text when the user wrote it |
| `ConversationEngine.Say` | assets/js/ai/conversation-engine.js:374-393 | the assistant has said the text afterwards, only appended, and no assistant text is repeated |
| `ConversationEngine.Record` | assets/js/ai/conversation-engine.js:365-468 | at most two assistant messages are appended, none said before, and assistant texts stay distinct |
| `ConversationEngine.RecordTwice` | assets/js/ai/conversation-engine.js:365-468 | recording the same response twice adds nothing the second time |
| `ConversationEngine.UserMessageKeepsDistinct` | assets/js/ai/conversation-engine.js:326-330 | a user message keeps the assistant's texts distinct |
| `ConversationEngine.Reply` | assets/js/ai/conversation-engine.js:324-358 | the response carries the acknowledgment, a next question, the last message and its topics |
| `ConversationEngine.FeatureList` | assets/js/ai/conversation-engine.js:496-498 | features are passed exactly when the list is a non-empty array |
| `ConversationEngine.IfTruthy` | assets/js/ai/conversation-engine.js:476-494 | a filter is set exactly when its value is truthy, to that value |
| `ConversationEngine.BuildSearchFilters` | assets/js/ai/conversation-engine.js:473-501 | each filter is present exactly when its lead field is truthy, with that field's value |
| `ConversationEngine.Conversation.constructor` | assets/js/ai/conversation-engine.js:9-16 | the memory starts empty, over a lead of the `resetChat` shape |
| `ConversationEngine.Conversation.Remember` | assets/js/ai/conversation-engine.js:326-331 | the user message is appended and becomes the last one, and nothing else changes |
| `ConversationEngine.Conversation.Absorb` | assets/js/ai/conversation-engine.js:334-338 | the patch is merged into the lead and spread into the extracted data; the merge never meets a field it cannot spread, and the lead keeps its shape |
| `ConversationEngine.Conversation.CoverTopics` | assets/js/ai/conversation-engine.js:341-342 | the message's topics join the covered ones |
| `ConversationEngine.Conversation.Listen` | assets/js/ai/conversation-engine.js:324-342 | the message is remembered, read into the lead without a failing merge, and its topics covered |
| `ConversationEngine.Conversation.HandleConversation` | assets/js/ai/conversation-engine.js:324-358 | the memory is updated and the response is the reply for the updated lead |
| `ConversationEngine.Conversation.ProcessAIResponse` | assets/js/ai/conversation-engine.js:365-468 | a repeated response is ignored; otherwise it is recorded without repeating an assistant text |
| `CriteriaExtractor.GetIntensity` | assets/js/ai/criteria-extractor.js:21-34 | `getIntensity`: essential, exclusion, high, medium by the first word class found, high by default |
| `CriteriaExtractor.IntensityClasses` | assets/js/ai/criteria-extractor.js:28-34 | each intensity happens exactly when its words occur and no earlier class's do; high is the default |
| `CriteriaExtractor.RefusalIsExclusion` | assets/js/ai/criteria-extractor.js:28-34 | "não quero" means exclusion, although it contains "quero" |
| `CriteriaExtractor.ContextWindow` | assets/js/ai/criteria-extractor.js:209-210 | the window covers the keyword and at most 50 positions either side, clipped to the text's length |
| `CriteriaExtractor.KeywordFits` | assets/js/ai/criteria-extractor.js:209-210 | the keyword found by `indexOf` ends within the text's `length`, counted in UTF-16 units |
| `CriteriaExtractor.WindowHoldsKeyword` | assets/js/ai/criteria-extractor.js:209-211 | a unit range covering the keyword's units gives a context in which the keyword occurs |
| `CriteriaExtractor.ContextSpan` | assets/js/ai/criteria-extractor.js:209-210 | `contextStart` and `contextEnd` in UTF-16 units cover the keyword with at most 50 units either side, within `text.length` |
| `CriteriaExtractor.AmenityContext` | assets/js/ai/criteria-extractor.js:209-211 | the context holds the keyword and is at most 100 units longer than it |
| `CriteriaExtractor.ContextSpanBmp` | assets/js/ai/criteria-extractor.js:209-210 | on text inside the BMP the unit window is the character window |
| `CriteriaExtractor.AmenityContextBmp` | assets/js/ai/criteria-extractor.js:209-211 | on text inside the BMP the context is the lower-cased character slice around the keyword |
| `CriteriaExtractor.AstralCharsShiftContext` | assets/js/ai/criteria-extractor.js:205-213 | in "sem " + 24 emoji + "piscina" each emoji counts two units, so the window starts at the "m" of "sem", "sem" falls outside and the pool is wanted (high), while the whole text reads as an exclusion |
| `CriteriaExtractor.AmenityFor` | assets/js/ai/criteria-extractor.js:205-219 | an amenity carries its name and its keyword, and its intensity is read from the context of 50 UTF-16 units either side of the keyword |
| `CriteriaExtractor.AmenitiesFrom` | assets/js/ai/criteria-extractor.js:171-221 | every amenity found is a table entry whose keyword occurs |
| `CriteriaExtractor.FoundKeywordListed` | assets/js/ai/criteria-extractor.js:205-220 | every keyword that occurs yields its amenity |
| `CriteriaExtractor.Named` | assets/js/ai/criteria-extractor.js:227-230 | each list is at most the amenities |
| `CriteriaExtractor.PartitionSizes` | assets/js/ai/criteria-extractor.js:227-230 | the four lists together are as long as the amenities |
| `CriteriaExtractor.NamedMembers` | assets/js/ai/criteria-extractor.js:227-230 | a list holds exactly the names of the amenities of its intensity |
| `CriteriaExtractor.TypeOf` | assets/js/ai/criteria-extractor.js:40-47 | the type of the first keyword group that matches, `ap` only as a whole word |
| `CriteriaExtractor.PropertyType` | assets/js/ai/criteria-extractor.js:39-49 | a type is read only for its question or while none is known, and is one of the four kinds |
| `CriteriaExtractor.TypePrecedence` | assets/js/ai/criteria-extractor.js:40-48 | "apartamento" wins, house words come next, and no type is found exactly when no group matches |
| `CriteriaExtractor.FirstCount` | assets/js/ai/criteria-extractor.js:69-72 | a count is the one read at some position of the text |
| `CriteriaExtractor.NumberWordAt` | assets/js/ai/criteria-extractor.js:56-59 | a number word reads as 1 to 6 |
| `CriteriaExtractor.ExplicitBedrooms` | assets/js/ai/criteria-extractor.js:55-60 | an explicit count is positive |
| `CriteriaExtractor.Bedrooms` | assets/js/ai/criteria-extractor.js:54-66 | the bedroom rule: gated on the question or an unknown count, a household word over the explicit count |
| `CriteriaExtractor.BedroomsRule` | assets/js/ai/criteria-extractor.js:54-66 | bedrooms are read only for their question or while none are known; a household word wins over the count |
| `CriteriaExtractor.ZoneAt` | assets/js/ai/criteria-extractor.js:102-105 | a zone is one of the five zone words |
| `CriteriaExtractor.FirstZone` | assets/js/ai/criteria-extractor.js:102-107 | the zone kept is one of the five zone words |
| `CriteriaExtractor.Neighborhood` | assets/js/ai/criteria-extractor.js:110-113 | a neighbourhood is kept, trimmed, exactly when the phrase is 3 to 29 UTF-16 units long |
| `CriteriaExtractor.MinimumAt` | assets/js/ai/criteria-extractor.js:155 | a minimum reads a well-formed decimal |
| `CriteriaExtractor.FirstMinimum` | assets/js/ai/criteria-extractor.js:155-165 | the minimum is the first "mínimo" or "a partir de" amount, a well-formed decimal |
| `CriteriaExtractor.SingleBudget` | assets/js/ai/criteria-extractor.js:120-136 | a single amount sets only `max`; the million pattern is tried only when `milh[oõ]e` occurs |
| `CriteriaExtractor.NoMinimumWithout` | assets/js/ai/criteria-extractor.js:155 | a text without `í` or `p` holds no minimum phrase |
| `CriteriaExtractor.MilhoIgnored` | assets/js/ai/criteria-extractor.js:119-166 | "até N milho" yields no budget |
| `CriteriaExtractor.UnitFactor` | assets/js/ai/criteria-extractor.js:144 | a unit containing `milhão` scales by a million, any other by a thousand |
| `CriteriaExtractor.RangedBudget` | assets/js/ai/criteria-extractor.js:120-152 | the first range found, both ends scaled by its unit's factor, replaces the single amount |
| `CriteriaExtractor.MinimumValue` | assets/js/ai/criteria-extractor.js:157-163 | the minimum's amount: as read without a unit, scaled by the unit's factor with one |
| `CriteriaExtractor.CriteriaBudget` | assets/js/ai/criteria-extractor.js:119-166 | a budget is read only for the budget question or when money is mentioned |
| `CriteriaExtractor.UnitCaptureNotMilhao` | assets/js/ai/criteria-extractor.js:139 | the unit captured never contains "milhão" |
| `CriteriaExtractor.RangeTailUnit` | assets/js/ai/criteria-extractor.js:139-144 | the unit a range captures never contains "milhão" |
| `CriteriaExtractor.RangeScalesByThousand` | assets/js/ai/criteria-extractor.js:139-151 | every range, in "milhões" too, is scaled by a thousand |
| `CriteriaExtractor.MinimumKeepsMax` | assets/js/ai/criteria-extractor.js:154-165 | a minimum sets `min` and keeps the range's `max` |
| `CriteriaExtractor.RangeReplacesSingle` | assets/js/ai/criteria-extractor.js:138-152 | a range replaces the single amount with its two ends |
| `CriteriaExtractor.PropertyAge` | assets/js/ai/criteria-extractor.js:261-266 | `new` for a newness word, otherwise `used` for a used word, otherwise none |
| `CriteriaExtractor.Proximity` | assets/js/ai/criteria-extractor.js:238-243 | a proximity is kept only when "perto" or "próximo" occurs |
| `CriteriaExtractor.ExtractAllCriteria` | assets/js/ai/criteria-extractor.js:12-269 | `extractAllCriteria(text, field)`: every rule of the extractor applied to the lower-cased text, `{}` for anything but a non-empty string |
| `CriteriaExtractor.NotTextNoCriteria` | assets/js/ai/criteria-extractor.js:13 | anything but a non-empty string yields `{}` |
| `CriteriaExtractor.CityAndLocationAgree` | assets/js/ai/criteria-extractor.js:93-99 | `location` and `city` are the same, and a city is set only under the location rule, as the canonical name of the first table city that occurs |
| `CriteriaExtractor.AmenityListsPartition` | assets/js/ai/criteria-extractor.js:223-231 | the four intensity lists together are as long as the amenities |
| `ConfirmationFlow.FormatCurrency` | assets/js/ai/confirmation-flow.js:137-163 | 0 is "0"; only a whole number of thousands or millions is written out |
| `ConfirmationFlow.WholeMillions` | assets/js/ai/confirmation-flow.js:140-143 | m million is "m milhão", with "ões" appended above one, and m reads back |
| `ConfirmationFlow.TwoMillions` | assets/js/ai/confirmation-flow.js:143 | two million is written "2 milhãoões" |
| `ConfirmationFlow.WholeThousands` | assets/js/ai/confirmation-flow.js:149-152 | k thousand below a million is "k mil", and k reads back |
| `ConfirmationFlow.FractionalMillions` | assets/js/ai/confirmation-flow.js:140-146 | a million or more that is not whole is left to `toFixed(1)` |
| `ConfirmationFlow.Label` | assets/js/ai/confirmation-flow.js:23-117 | the text each detail line of a section starts with |
| `ConfirmationFlow.LabelOf` | assets/js/ai/confirmation-flow.js:23 | a key takes the label of its first entry, and a missing key shows itself |
| `ConfirmationFlow.PlaceText` | assets/js/ai/confirmation-flow.js:37-45 | `location` or else `city`, then " (Zona Z)" with the zone capitalised, then " - " and the neighbourhood |
| `ConfirmationFlow.BudgetText` | assets/js/ai/confirmation-flow.js:49-57 | the budget phrase by which bounds are truthy, empty when neither is |
| `ConfirmationFlow.AmenityList` | assets/js/ai/confirmation-flow.js:77-79 | the amenity codes mapped to their labels, unknown codes as they are, joined by ", " |
| `ConfirmationFlow.Detail` | assets/js/ai/confirmation-flow.js:15-118 | a detail line starts with its section's label |
| `ConfirmationFlow.Details` | assets/js/ai/confirmation-flow.js:13-117 | `details`: the lines of the sections in the order of the code |
| `ConfirmationFlow.Present` | assets/js/ai/confirmation-flow.js:15-118 | at most one line per section |
| `ConfirmationFlow.PresentMembers` | assets/js/ai/confirmation-flow.js:15-118 | a line is shown exactly when it is some section's detail |
| `ConfirmationFlow.PresentEmpty` | assets/js/ai/confirmation-flow.js:121-129 | there are no details exactly when no section is filled |
| `ConfirmationFlow.Summary` | assets/js/ai/confirmation-flow.js:127-129 | with no details the summary is the fallback sentence |
| `ConfirmationFlow.FramedLines` | assets/js/ai/confirmation-flow.js:121-131 | the framed lines split back into header, rule, details, rule, blank line and closing |
| `ConfirmationFlow.SummaryLines` | assets/js/ai/confirmation-flow.js:121-131 | the summary's lines are exactly the header, the rule, the details, the rule, a blank line and the closing question |
| `ConfirmationFlow.BudgetForms` | assets/js/ai/confirmation-flow.js:49-61 | the budget line is shown exactly when a bound is truthy, and reads "R$ min a R$ max", "até R$ max" or "a partir de R$ min" by which bounds are truthy |
| `ConfirmationFlow.PlaceParts` | assets/js/ai/confirmation-flow.js:37-46 | the place starts with the location or city, then the capitalised zone, and ends with the neighbourhood |
| `ListingFilter.Select` | assets/js/imoveis/filter.js:30-44 | `filter` keeps exactly the elements that pass |
| `ListingFilter.SelectSubsequence` | assets/js/imoveis/filter.js:30-44 | `filter` keeps the order |
| `ListingFilter.SelectWeaker` | assets/js/imoveis/filter.js:94-100 | a weaker test keeps every element a stronger one keeps, in order |
| `ListingFilter.SelectSnoc` | assets/js/imoveis/filter.js:30-44 | one more element is kept at the end exactly when it passes |
| `ListingFilter.SelectAll` | assets/js/imoveis/filter.js:43 | a test that always passes keeps everything |
| `ListingFilter.Keeps` | assets/js/imoveis/filter.js:30-44 | the filter callback: type, minimum bedrooms, price bounds, region or district, and every feature, each only when its filter is set |
| `ListingFilter.CountKeeps` | assets/js/imoveis/filter.js:94-99 | the counter's callback: type, minimum bedrooms and maximum price only |
| `ListingFilter.FilterImoveis` | assets/js/imoveis/filter.js:30-44 | a listing is shown exactly when it is in the catalogue and passes the filters |
| `ListingFilter.KeptMeetsFilters` | assets/js/imoveis/filter.js:31-42 | every listing shown meets each active filter |
| `ListingFilter.MeetingFiltersIsKept` | assets/js/imoveis/filter.js:31-42 | every listing that meets each active filter is shown |
| `ListingFilter.FilterKeepsOrder` | assets/js/imoveis/filter.js:30-44 | the listings shown keep the catalogue's order |
| `ListingFilter.InactiveKeepsAll` | assets/js/imoveis/filter.js:31-43 | with no active filter every listing is shown |
| `ListingFilter.CityIgnored` | assets/js/imoveis/filter.js:35-36 | the listing's city never matters; the location is matched in region and neighbourhood only |
| `ListingFilter.TighterKeepsLess` | assets/js/imoveis/filter.js:31-42 | tighter filters keep a listing only if looser ones do |
| `ListingFilter.TighteningShrinks` | assets/js/imoveis/filter.js:30-44 | tighter filters show a subsequence of what looser ones show |
| `ListingFilter.ResultsCount` | assets/js/imoveis/filter.js:94-100 | the count is at most the catalogue |
| `ListingFilter.CountCoversResults` | assets/js/imoveis/filter.js:94-100 | the counter counts at least the listings shown, since it applies only three of the filters |
| `Catalogue.Created` | assets/js/imoveis/database-expanded.js:10-16 | a new listing has the data's fields, `disponivel` true, and the counter's id unless the data has one |
| `Catalogue.IdCounter.constructor` | assets/js/imoveis/database-expanded.js:8 | the counter starts at 51 |
| `Catalogue.IdCounter.CreateImovel` | assets/js/imoveis/database-expanded.js:10-16 | the listing is stamped with the counter, which goes up by one |
| `Catalogue.CreateAll` | assets/js/imoveis/database-expanded.js:22-955 | the i-th listing gets the i-th id from the counter, which moves by the count |
| `Catalogue.NovosImoveis` | assets/js/imoveis/database-expanded.js:22-955 | the new listings are available and numbered from 51 unless they carry an id |
| `Catalogue.WithOperation` | assets/js/imoveis/database-expanded.js:962-964 | a listing without a truthy `tipo_operacao` gets "venda"; any other is left as it is |
| `Catalogue.WithOperationChangesOnlyOperation` | assets/js/imoveis/database-expanded.js:961-965 | only `tipo_operacao` changes, and only to "venda" when it was falsy |
| `Catalogue.WithOperationIdempotent` | assets/js/imoveis/database-expanded.js:961-965 | the defaulting pass leaves an operation, and a second pass changes nothing |
| `Catalogue.DefaultOperations` | assets/js/imoveis/database-expanded.js:961-965 | every entry of the array gets its default operation in place |
| `Catalogue.Expand` | assets/js/imoveis/database-expanded.js:958-965 | the combined catalogue is the base listings then the new ones, each with its operation |
| `Sidebar.FirstMissing` | assets/js/ai/sidebar.js:162-169 | the first question not yet asked, and none exactly when all are asked |
| `Sidebar.NextFollowUp` | assets/js/ai/sidebar.js:161-172 | the next question is the first follow-up not asked, and there is none exactly when all were asked |
| `Sidebar.AllAskedCloses` | assets/js/ai/sidebar.js:170-171 | with every follow-up asked the sidebar closes |
| `Sidebar.PaymentFirst` | assets/js/ai/sidebar.js:162-165 | payment comes first, then the decision makers |
| `Sidebar.CodesCommaFree` | assets/js/ai/sidebar.js:194-209 | feature codes are non-empty and free of commas |
| `Sidebar.FeaturesRoundTrip` | assets/js/ai/sidebar.js:211 | the joined feature codes split back at commas into the codes |
| `Sidebar.NonZero` | assets/js/ai/sidebar.js:183-184 | `n \|\| null` keeps exactly the non-zero numbers |
| `Sidebar.NumberText` | assets/js/ai/sidebar.js:271 | a number written into the URL is a non-empty text |
| `Sidebar.Kept` | assets/js/ai/sidebar.js:269-273 | at most the filters given are written |
| `Sidebar.KeptExactly` | assets/js/ai/sidebar.js:269-273 | a parameter is written exactly when its filter holds a non-empty value |
| `Sidebar.Written` | assets/js/ai/sidebar.js:269-273 | at most five parameters, exactly the filters with a non-empty value |
| `Sidebar.TimeSpanAt` | assets/js/ai/sidebar.js:223 | a time span starts with a digit |
| `Sidebar.TimeSpan` | assets/js/ai/sidebar.js:223-224 | the span found is a time span of the text |
| `Sidebar.TimeSpanStartsNumber` | assets/js/ai/sidebar.js:224-225 | the span quoted starts at the beginning of a number |
| `Sidebar.TimeSpanInsideRun` | assets/js/ai/sidebar.js:224 | a span read from inside a number ends where the one from its start does |
| `Sidebar.PaymentAck` | assets/js/ai/sidebar.js:229-236 | financing, cash or the plain reply, by the first word group found in the payment answer |
| `Sidebar.DecisionAck` | assets/js/ai/sidebar.js:239-248 | alone, couple, family or the plain reply, by the first word group found |
| `Sidebar.SituationAck` | assets/js/ai/sidebar.js:249-258 | renting, owner, with family or the plain reply, by the first word group found |
| `Sidebar.TimelineAck` | assets/js/ai/sidebar.js:218-228 | a deadline acknowledgment quotes a time span of the answer as written |
| `Sidebar.Acknowledgment` | assets/js/ai/sidebar.js:216-261 | the features answer gets its fixed reply, and a field outside the sequence the generic one |
| `Sidebar.BaseFilters` | assets/js/ai/sidebar.js:181-186 | the saved filters, without features, with zero numbers dropped |
| `Sidebar.ProcessSidebarAnswer` | assets/js/ai/sidebar.js:179-263 | filters change exactly for a features answer naming a feature, which sets the joined codes |
| `Sidebar.Update` | assets/js/ai/sidebar.js:266-273 | parameters are written only when the filters changed |
| `Sidebar.ChangeWritesFeatures` | assets/js/ai/sidebar.js:266-273 | a change always writes its features parameter |
| `Sidebar.FeatureAnswerWritesFeatures` | assets/js/ai/sidebar.js:191-273 | a features answer naming a feature writes the joined codes to the URL |
| `Sidebar.SidebarState.constructor` | assets/js/ai/sidebar.js:44-47 | nothing asked, no current question |
| `Sidebar.SidebarState.AskRefinementQuestion` | assets/js/ai/sidebar.js:94-144 | a question is asked at most once; a known one becomes current and is shown |
| `Sidebar.SidebarState.Start` | assets/js/ai/sidebar.js:59-65 | the greeting, then the timeline question |
| `Sidebar.SidebarState.FollowUp` | assets/js/ai/sidebar.js:161-172 | the next follow-up is asked, or the closing line is shown |
| `Sidebar.SidebarState.HandleSidebarInput` | assets/js/ai/sidebar.js:146-177 | blank input is ignored; with no question the input is only shown; otherwise it is acknowledged, its filters written and the next question asked |
| `AISearch.Listing.constructor` | ai-search.js:15-143 | a listing with its fields and a score of 0 |
| `AISearch.Within` | ai-search.js:302-310 | a number passes when no truthy minimum is above it and no truthy maximum below it |
| `AISearch.Offers` | ai-search.js:312-313 | some feature of the listing contains the value, both lower-cased |
| `AISearch.ProfileFits` | ai-search.js:318-332 | family: 3 bedrooms or more; young or single: at most 2; first: price at most 500000; couple: 2 or 3; any other profile passes |
| `AISearch.Satisfies` | ai-search.js:298-333 | the filter callback for one keyword's entry, by its field |
| `AISearch.Criteria` | ai-search.js:293-295 | the keywords the lower-cased query contains, in the table's order |
| `AISearch.Narrowed` | ai-search.js:293-336 | narrowing never adds listings |
| `AISearch.CriteriaExactly` | ai-search.js:293-296 | the criteria are exactly the table's keywords that occur, in table order |
| `AISearch.NarrowedSubsequence` | ai-search.js:298 | the survivors keep the listings' order |
| `AISearch.NarrowedExactly` | ai-search.js:293-336 | a listing survives exactly when it meets the test of every keyword found |
| `AISearch.MoreKeywordsNarrow` | ai-search.js:293-336 | a query with more keywords keeps only listings a query with fewer keeps |
| `AISearch.NarrowedDistinct` | ai-search.js:290-298 | the survivors are distinct objects |
| `AISearch.CoupleQueryKeepsHouses` | ai-search.js:293-336 | a query saying "casal" keeps only houses of 2 or 3 bedrooms |
| `AISearch.ProfileQueriesNarrow` | ai-search.js:318-331 | each profile word bounds the bedrooms or the price of every survivor |
| `AISearch.Lookup` | ai-search.js:344 | a keyword's entry is one of the table's, and none exactly when the keyword is missing |
| `AISearch.FeatureBonus` | ai-search.js:343-350 | the feature bonus is 15 per matched criterion at most |
| `AISearch.CapAt` | ai-search.js:354 | `/até\s*(\d+)/` tried at one position: the number after "até" and any spaces |
| `AISearch.PriceCap` | ai-search.js:353-361 | a cap is read only after "até", in whole thousands |
| `AISearch.Score` | ai-search.js:340-366 | the score is at most 99, and at least 50 for a non-negative jitter |
| `AISearch.SurvivorsGetFullBonus` | ai-search.js:343-350 | every survivor gets the full bonus of the feature criteria |
| `AISearch.Swap` | ai-search.js:370 | two entries trade places, a permutation |
| `AISearch.Insert` | ai-search.js:370 | one more entry is put into the sorted prefix, a permutation |
| `AISearch.SortByScore` | ai-search.js:370 | the listings end highest score first, a permutation |
| `AISearch.MatchKeywords` | ai-search.js:288-336 | the loop computes the criteria and the survivors |
| `AISearch.ScoreAll` | ai-search.js:339-367 | every survivor's score field holds its score |
| `AISearch.Rank` | ai-search.js:339-370 | the survivors are scored and returned highest first, a permutation, each score between 50 and 99 |
| `AISearch.ProcessAIQuery` | ai-search.js:287-377 | the result is the survivors sorted by score, with the criteria and the interpretation; only the survivors' scores are rewritten |
| `AISearch.FirstFound` | ai-search.js:386-387 | `find` gives the first name that occurs, or none when none does |
| `AISearch.BedroomsAt` | ai-search.js:395 | a bedroom mention is a non-empty span |
| `AISearch.BedroomMention` | ai-search.js:395 | the mention found is one of the text |
| `AISearch.BedroomCountIsWhole` | ai-search.js:395 | the count quoted starts at the beginning of a number |
| `AISearch.PriceAt` | ai-search.js:401 | a price mention follows "até", and its unit, when present, is "mil" |
| `AISearch.PriceMention` | ai-search.js:401 | the price found is a mention of the text |
| `AISearch.Label` | ai-search.js:385-392 | the first type word the query contains, capitalised, or "Imóvel" |
| `AISearch.BedroomClause` | ai-search.js:395-399 | " com N quarto(s)" with the digits as typed, or nothing |
| `AISearch.PriceClause` | ai-search.js:401-405 | ", até R$ ", the amount as typed and its unit or " mil", or nothing |
| `AISearch.PhraseClause` | ai-search.js:407-426 | ", " and the feature phrases whose words occur, in the order of the code, or nothing |
| `AISearch.Details` | ai-search.js:394-426 | the bedroom, price and phrase clauses in that order |
| `AISearch.GenerateInterpretation` | ai-search.js:382-430 | the label followed by the clauses; the criteria argument is not read |
| `AISearch.LabelNonEmpty` | ai-search.js:385-392 | the interpretation's label is never empty |
| `AISearch.LabelOpensLine` | ai-search.js:385-392 | the interpretation starts with the label |
| `AISearch.InterpretationStartsWithType` | ai-search.js:386-392 | the interpretation starts with the first type named, capitalised, or "Imóvel" when none is |
| `AISearch.UnitIsMil` | ai-search.js:401-403 | the unit written is the text typed after the number, and it lower-cases to " mil" |
| `AISearch.PriceUnitIsMil` | ai-search.js:401-403 | the price clause always ends in a unit that lower-cases to " mil", whatever unit the query used |
| `AISearch.Fires` | ai-search.js:783-811 | a query fragment is pushed when its answer is a non-empty string containing the option text |
| `AISearch.Fragments` | ai-search.js:780-814 | one fragment per rule |
| `AISearch.Fired` | ai-search.js:780-814 | the fragments pushed are exactly those of the rules that fire, in rule order |
| `AISearch.UnansweredFiresNothing` | ai-search.js:780-814 | no answers fire no rule |
| `AISearch.BuildSearchQuery` | ai-search.js:780-814 | with no rule firing, or no answers, the query is empty |
| `AISearch.AfterClick` | ai-search.js:727-742 | a question is asked exactly while the step is on the flow; results come after |
| `AISearch.TypeQuestionNeverAsked` | ai-search.js:713-731 | from step 3 on the type question is never asked |
| `AISearch.AIChat.constructor` | ai-search.js:713 | the chat starts at step 2 with no answers |
| `AISearch.AIChat.HandleOptionClick` | ai-search.js:715-743 | the answer is recorded, the step moves on to 3 or later, and the outcome is the next question, never the type question, or the results |

## Left out

- Rendering, DOM events, timers and notifications are not modelled. This covers `openLunaChat`, `initAIChat`, `startChat`, `showOptions`, `showMultiOptions`, `showTextInput`, `addAIMessage`, `addUserMessage`, `showNotification`, the sidebar's HTML, `displayAIResults`, `createAIPropertyCard`, `renderProperties` and `updatePageHeader`. A delayed step is taken as immediate.
- `finishChat`, `saveLeadToStorage`, `showLeadSummary`, `exportLeadData` and `initLeadExport` are not modelled. They write to `localStorage` and to the page.
- `handleTextInput` is not modelled. Its validation is modelled as `LeadCapture.Accepts`, and its save as `Chat.SaveAnswer`.
- `assets/js/core/main.js` is not part of this model.
- Time stamps (`startedAt`, message `timestamp`) are not modelled. The reset record takes the start time as a parameter.
- `Math.random()` in the score is a parameter (`jitter`).
- `generateAcknowledgment` is a parameter of `HandleConversation`.
- The free-phrase captures are parameters. These are the city phrase after "em/na/no/de/da", the neighbourhood after "bairro/no/na/em" and the place after "perto/próximo". Only what the code does with a capture is modelled.
- `formatCurrency` of `conversation-engine.js`, used in the closing message, is modelled by `ConversationEngine.Amount`. A number goes through `ConfirmationFlow.FormatCurrency`: the two JavaScript functions differ only at 0, and the truthy guard never passes 0. The `toFixed(1)` texts, the `Intl.NumberFormat` text and values that are not numbers are a parameter (`fmt`).
- The URL, `URLSearchParams`, `history.replaceState` and `window.location` are not modelled. Filters arrive parsed, and the sidebar returns the parameters it would set.
- Regular expressions with `/i` are modelled as matching on the lower-cased text. Lower-casing covers ASCII and the Latin-1 letters of Portuguese.
- Amounts are whole reais. `parseFloat(...) * unit` is computed exactly and then truncated. `parseInt` precision limits are not modelled.
- `ConfirmationFlow.FormatCurrency`: the `toFixed(1)` texts and `Intl.NumberFormat` below a thousand are a parameter (`other`). Only the whole-number branches are written out.
- `LeadCapture.FormatBudget`: the exact amount is returned as `Currency(n)` rather than its `Intl.NumberFormat` text.
- `LeadCapture.Chat.SaveAnswer`: the merge of `option.data` from a step's options is not modelled. No step of `leadCaptureFlow` has options.
- `handleOptionClick` of `lead-capture.js` is not modelled. Its `followUp` and `conditionalFollowUp` messages belong to option steps, which the table does not have.
- The initial `chatState` (cursor 0, no start time) is replaced by the reset state. `startChat` sets the cursor to -1 before the first step.
- `LeadCapture.Advance`: the `maxAttempts` bound of the loop is not modelled. The table has 22 steps and the bound is 44, so it is never reached.
- `AISearch.SortByScore`: the stability of `Array.prototype.sort` is not stated. Only the order by score and the permutation are.
- The literal contents of the listings in `database-expanded.js` and `ai-search.js` are not modelled.
- `AISearch.Lookup`: the lookup of a criterion in `keywordMapping` takes the first entry with that key. Keys of a JavaScript object literal are unique, and so are those of the table.
- `generateInterpretation` receives `criteria` and never reads it. The model leaves the argument out.
- `Sidebar.TimelineAck`: the `'esse prazo'` fallback is not modelled. The `/i` match on the answer always succeeds once the lower-cased test has succeeded.
- The sidebar's questions and messages are kept as their type and kind of message, not as their Portuguese text. The transcript records which question or message is shown, not its words.
- `sendUserMessage`, `generateChatResults`, `initAIFloatButton` and `performAISearch` of `ai-search.js` are not modelled. They only show messages or call `processAIQuery`.
- `showResultsButton` is not modelled. The search URL it receives is represented by `BuildSearchFilters`.
- Insertion order of object keys is not represented. Objects are maps.
- `Catalogue.DefaultOperations` writes the default operation into copies. The `forEach` in database-expanded.js writes it into the listing objects themselves, so `baseImoveis` (the old `window.imoveisPOA`) changes too. No reader in the source tells the two apart, but the model does not capture that aliasing.
- `Text.UnitSlice`: when `substring` cuts a character outside the BMP in two, JavaScript keeps the lone surrogate half at that end. The model drops it. It lies at the very edge of the context, and no intensity word, all of whose characters are inside the BMP, can match across it.
- `ConversationEngine.MoreThanOne`: a bedroom count held as a string is compared as a number only when it is all digits. JavaScript's `Number()` also reads surrounding whitespace and decimals, such as " 3" or "2.5". Only the plural "s" of the closing message depends on it.
