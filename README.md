# Padhai Ka Safar — rule engine and mock identity verification, in Dafny

This project models the two deterministic pieces under a student-facing
web application. The application matches a student with government
scholarships and courses, after a mock Aadhaar OTP check.

- **Rule engine** (`services/recommendationService.ts`). Three OR-combined
  eligibility rules over income band and education level. Each rule pushes
  fixed scholarship ids, looked up in a four-record catalog. The result is
  de-duplicated and lookups that found nothing are dropped. Courses come
  from a four-record catalog, filtered by education level. A lookup table
  gives two "next steps" per level.
- **Mock identity service** (`services/mockAadhaarService.ts`). `sendOtp`
  accepts exactly twelve ASCII digits. `verifyOtp` accepts only the demo
  code and returns a token built from the clock, plus fixed KYC data.
- **Verification widget** (`components/AadhaarVerifier.tsx`). A step
  machine INPUT → OTP → SUCCESS with a "Go Back" edge, an error line, a
  loading flag, digit-only input filters and button guards. It is modelled
  as a class whose fields are the component's state and whose methods are
  its handlers, each one atomic transition.
- **Legacy script** (`script.js`, lines 8-82). An older, untyped copy of
  the catalog, the service and the rule engine. It is modelled side by side
  with the typed one, and lemmas state where the two agree and where they
  differ.

Files: `common.dfy` (the JavaScript built-ins the code relies on:
`filter`, `[...new Set(xs)]`, `filter(Boolean)`, `includes`),
`types.dfy` (the enums and records of `types.ts`),
`recommendation_service.dfy`, `mock_aadhaar_service.dfy`,
`aadhaar_verifier.dfy`, `legacy_script.dfy`.

How the two rule engines differ, as proved:

- `script.js` `sendOtp` checks the length only. Every number the typed
  service accepts, it accepts too. Twelve letters pass it but not the
  typed service (`LegacyScript.SendOtpWeakerThanTyped`).
- Both engines grant the same scholarship ids for every income and level
  (`LegacyScript.ScholarshipRulesAgree`).
- `script.js` `getCourses` tests whether the level's text contains
  "Class". Otherwise it returns the CS/Mgmt courses, Diploma included. The
  typed engine returns the whole catalog for Diploma. The course ids agree
  for every level except Diploma (`LegacyScript.CoursesAgreeExceptDiploma`).
- `script.js` `getNextSteps` has an entry for Postgraduate. The typed
  `getNextSteps` has no Postgraduate case and falls to its default
  (`LegacyScript.NextStepsCoverEveryLevel`).

Further facts about the code that the model keeps:

- `getNextSteps` has no Postgraduate case, so Postgraduate gets the
  default pair (`RecommendationService.GetNextSteps`).
- The verification token is built from the clock and is not guaranteed
  unique. The model proves only that tokens issued at different times
  differ (`MockAadhaarService.TokenDeterminesTime`).
- "Go Back" changes only the step. The typed number and any error message
  stay as they are (`AadhaarVerifierComponent.AadhaarVerifier.GoBack`).

## Model

| member | source | states |
|---|---|---|
| `Common.Filter` | services/recommendationService.ts:116 | `Array.filter` never returns more elements than it is given; which elements, in which order and how often are `Common.FilterMembership`, `Common.FilterSubsequence` and `Common.FilterCount` |
| `Common.Dedup` | services/recommendationService.ts:110 | `[...new Set(xs)]` keeps exactly the input's elements, with no element twice |
| `Common.DedupInOrder` | services/recommendationService.ts:110 | the one-pass construction of the set's contents returns `Dedup` of its input |
| `Common.DropUndefined` | services/recommendationService.ts:110 | the one-pass `filter(Boolean)` returns exactly the defined entries, in order |
| `Common.Present` | services/recommendationService.ts:110 | `filter(Boolean)` over lookups keeps exactly the values that were found, and never adds an entry |
| `Common.DedupOfDistinct` | services/recommendationService.ts:110 | de-duplication leaves a sequence with no repetitions unchanged |
| `Common.FilterMembership` | services/recommendationService.ts:116 | an element is in a filter's result iff it is in the input and satisfies the predicate |
| `Common.FilterSubsequence` | services/recommendationService.ts:116 | a filter's result is a subsequence of its input, so catalog order is kept |
| `Common.FilterCount` | components/AadhaarVerifier.tsx:74 | a filter keeps every accepted element exactly as many times as it occurs and drops every other element |
| `Common.Includes` | script.js:67 | `includes` of a non-empty text needs its first character in the string and a text no longer than the string, and a prefix is always included |
| `RecommendationService.ScholarshipCatalog` | services/recommendationService.ts:12-49 | `SCHOLARSHIP_DB` has one record per id, and its ids are exactly the four the rules push |
| `RecommendationService.CourseCatalog` | services/recommendationService.ts:51-84 | `COURSE_DB` has one record per id; no course is both a school course and a degree course; each group holds two courses |
| `RecommendationService.FindScholarship` | services/recommendationService.ts:95 | `find` by id returns a catalog record with that id, and nothing iff no record has it |
| `RecommendationService.RuleLookupsSucceed` | services/recommendationService.ts:95-106 | every id a rule pushes is in the catalog, so no `!` lookup yields `undefined` |
| `RecommendationService.RuleOrderFilter` | services/recommendationService.ts:93-107 | any predicate applied to the four pushed ids keeps them in the order the rules push them |
| `RecommendationService.EligibleIdsByRule` | services/recommendationService.ts:93-107 | the reference result (granted ids in rule order) is rule 1's pair, then NSP-002 if rule 2 fires, then AICTE-001 if rule 3 fires |
| `RecommendationService.LookupsOfDistinctIds` | services/recommendationService.ts:110 | lookups of distinct existing ids pass de-duplication and the `Boolean` filter unchanged, giving catalog records with exactly those ids |
| `RecommendationService.GetEligibleScholarships` | services/recommendationService.ts:88-111 | the pushes, de-duplication and filter return catalog records whose ids are exactly the granted ids in rule order |
| `RecommendationService.EligibleProperties` | services/recommendationService.ts:88-111 | the result has no duplicate id; an id is in it iff a fired rule grants it; the result is in rule order |
| `RecommendationService.LowIncomeScholarships` | services/recommendationService.ts:94-97 | a low-income student always gets NSP-001 and ST-001 |
| `RecommendationService.EducationScholarships` | services/recommendationService.ts:100-107 | NSP-002 is granted iff the level is UG or PG; AICTE-001 iff Diploma or UG |
| `RecommendationService.NoScholarshipsForAffluentSchoolStudent` | services/recommendationService.ts:88-111 | a Class 10/12 student in the two upper income bands gets nothing |
| `RecommendationService.GetRecommendedCourses` | services/recommendationService.ts:113-124 | Class 10/12 get exactly the Vocational or Skill India courses; UG/PG exactly Computer Science or Management; Diploma the whole catalog; always in catalog order |
| `RecommendationService.RecommendedCourseIds` | services/recommendationService.ts:51-124 | the concrete course ids per level: NSDC-01, SI-01 for school; SW-01, NPTEL-01 for UG/PG; all four for Diploma |
| `RecommendationService.GetNextSteps` | services/recommendationService.ts:126-138 | every level gets two distinct suggestions; the default pair is returned exactly for Postgraduate |
| `MockAadhaarService.MatchesDigits` | services/mockAadhaarService.ts:26 | `/^\d{n}$/` matches iff the string has length n and only ASCII digits |
| `MockAadhaarService.WellFormedAadhaar` | services/mockAadhaarService.ts:26 | a number is well formed exactly when it matches `/^\d{12}$/` |
| `MockAadhaarService.SendOtp` | services/mockAadhaarService.ts:22-32 | success iff the input is exactly twelve ASCII digits; the format message on failure, the sent message on success |
| `MockAadhaarService.SendOtpForgetsNumber` | services/mockAadhaarService.ts:22-31 | the reply depends only on whether the number is well formed, so nothing else about it is returned |
| `MockAadhaarService.Decimal` | services/mockAadhaarService.ts:45 | the rendered timestamp is a non-empty digit string without a leading zero |
| `MockAadhaarService.DecimalRoundTrip` | services/mockAadhaarService.ts:45 | reading the rendered timestamp back gives the timestamp |
| `MockAadhaarService.VerificationToken` | services/mockAadhaarService.ts:45 | the token is `VERIFIED_UID_`, then only digits, then `_SECURE` |
| `MockAadhaarService.VerifyOtp` | services/mockAadhaarService.ts:38-54 | success iff the code is 123456; success carries token `VERIFIED_UID_<now>_SECURE` and Rahul Kumar/Delhi with no message; failure carries only "Incorrect OTP. Please try again." |
| `MockAadhaarService.TokenDeterminesTime` | services/mockAadhaarService.ts:45 | equal tokens were issued at the same time |
| `AadhaarVerifierComponent.Controls` | components/AadhaarVerifier.tsx:65-143 | the number field and Send are on screen exactly at INPUT; the code field, Verify and Go Back exactly at OTP; SUCCESS shows no control, so no handler can leave it |
| `AadhaarVerifierComponent.DigitsOnly` | components/AadhaarVerifier.tsx:74 | `replace(/\D/g, '')` keeps every digit of the value as many times as it occurs, in order, and nothing else |
| `AadhaarVerifierComponent.DigitsOnlyIdempotent` | components/AadhaarVerifier.tsx:112 | filtering twice is filtering once, and an all-digit value passes unchanged |
| `AadhaarVerifierComponent.FailureMessage` | components/AadhaarVerifier.tsx:47 | a missing or empty service message is replaced by "Verification failed"; any other is shown as is |
| `AadhaarVerifierComponent.AadhaarVerifier.Valid` | components/AadhaarVerifier.tsx:11-15 | the state every handler keeps: digit-only inputs, so a 12-character number is one the service accepts and a 6-character code matches `\d{6}`; the verified reply is held exactly while the step is SUCCESS |
| `AadhaarVerifierComponent.AadhaarVerifier.constructor` | components/AadhaarVerifier.tsx:11-15 | the widget starts at INPUT with empty inputs, no error and not loading |
| `AadhaarVerifierComponent.AadhaarVerifier.SendEnabled` | components/AadhaarVerifier.tsx:89 | when Send is enabled the submitted number is one the service accepts |
| `AadhaarVerifierComponent.AadhaarVerifier.VerifyEnabled` | components/AadhaarVerifier.tsx:122 | when Verify is enabled the submitted code is six digits |
| `AadhaarVerifierComponent.AadhaarVerifier.ChangeAadhaarInput` | components/AadhaarVerifier.tsx:74 | typing stores only the digits of the value and keeps the invariant |
| `AadhaarVerifierComponent.AadhaarVerifier.ChangeOtpInput` | components/AadhaarVerifier.tsx:112 | typing stores only the digits of the value and keeps the invariant |
| `AadhaarVerifierComponent.AadhaarVerifier.HandleSendOtp` | components/AadhaarVerifier.tsx:17-33 | success moves INPUT→OTP with no error; failure stays with the service message; a throw stays with "Service unavailable"; loading ends false; an enabled Send always advances |
| `AadhaarVerifierComponent.AadhaarVerifier.HandleVerifyOtp` | components/AadhaarVerifier.tsx:35-54 | success moves OTP→SUCCESS and hands on the service's reply; failure stays with its message or "Verification failed"; a throw stays with "Verification service error."; loading ends false |
| `AadhaarVerifierComponent.AadhaarVerifier.GoBack` | components/AadhaarVerifier.tsx:127-129 | moves OTP→INPUT unconditionally and changes nothing else |
| `LegacyScript.MockCatalog` | script.js:8-21 | `MOCK_DB` lists the same scholarship and course ids, in the same order, as the typed catalogs, and its short categories select the same courses |
| `LegacyScript.SendOtp` | script.js:24-31 | success iff the length is 12, with no digit check; failure says "Invalid Aadhaar Number" |
| `LegacyScript.SendOtpWeakerThanTyped` | script.js:27 | whatever the typed service accepts the script accepts; twelve letters are accepted only by the script |
| `LegacyScript.VerifyOtp` | script.js:32-46 | success iff the code is 123456, with token `UID_<now>` and user Rahul Kumar/Delhi; otherwise "Incorrect OTP" |
| `LegacyScript.EligibleIdsByRule` | script.js:54-63 | the granted ids are rule 1's pair, then NSP-002, then AICTE-001, each when its string test holds |
| `LegacyScript.RuleLookupsSucceed` | script.js:55-62 | every pushed id is in `MOCK_DB` |
| `LegacyScript.GetScholarships` | script.js:50-65 | returns `MOCK_DB` records whose ids are exactly the granted ids in rule order |
| `LegacyScript.ScholarshipRulesAgree` | script.js:54-63 | on the enum strings the script grants the same ids as the typed engine |
| `LegacyScript.GetCourses` | script.js:66-71 | a level containing "Class" gets exactly the Vocational or Skill India courses, any other exactly the CS or Mgmt ones, in catalog order |
| `LegacyScript.ClassLevels` | script.js:67 | exactly Class 10 and Class 12 contain "Class" |
| `LegacyScript.CourseIdsPerLevel` | script.js:66-71 | NSDC-01, SI-01 for school levels; SW-01, NPTEL-01 for every other level, Diploma included |
| `LegacyScript.CoursesAgreeExceptDiploma` | script.js:66-71 | the script and the typed engine recommend the same course ids iff the level is not Diploma |
| `LegacyScript.NextStepsTableKeys` | script.js:73-79 | the table's keys are exactly the five education level strings, and each entry is a pair other than the default |
| `LegacyScript.GetNextSteps` | script.js:72-81 | a table key gets its own pair, anything else gets ["Upskill","Certifications"]; always two entries |
| `LegacyScript.NextStepsCoverEveryLevel` | script.js:73-80 | every level has an entry, Postgraduate included, where the typed engine falls back |

## Left out

- Rendering, DOM updates, icons and CSS classes are not modelled. This covers `components/Dashboard.tsx`, `components/Header.tsx`, `components/ProfileSetup.tsx` and the `app` object of `script.js`. They are presentation only.
- `app.py` (static file serving and an HTTP mock endpoint) is not part of this model. It is I/O plumbing.
- The simulated latency (`delay`, `setTimeout`) and the promise machinery are left out. Each service call and each handler is one atomic step, so the loading flag is never observed true, and a second submission while one is pending is not modelled.
- `Date.now()` is the parameter `now`. It is taken as a non-negative whole number, rendered in plain decimal as JavaScript does below 10^21.
- A rejected service promise is the parameter `serviceThrows`. The mock services themselves never throw.
- The call to `onVerificationSuccess` 1.5 seconds after success is recorded at once, in the field `handedOff`.
- `maxLength` on the two inputs is enforced by the browser and is not modelled. The typed value is taken as given.
- Each handler requires that its form is on screen. It does not require that its button is enabled; instead, what an enabled button guarantees is proved.
- `new Set` de-duplicates by object identity. The model compares records by value, which agrees because the catalog records are distinct.
- JavaScript measures string length in UTF-16 code units; the model counts characters. The two differ only for characters outside the Basic Multilingual Plane, which no digit check accepts. `LegacyScript.SendOtp` is affected: such a character counts as two towards its length of 12.
- `LegacyScript.GetNextSteps` reads a plain object, so in JavaScript inherited keys such as `"toString"` return a function rather than the default pair. The model's table holds only the five own keys.
- The script's records are untyped objects. The model reuses the typed datatypes: `desc` becomes `eligibilityDescription`, `cat` becomes `category`, `cert` becomes `certification`, and the platform string becomes the `Platform` enum value of the same name.
- The script's profile holds the raw dropdown strings. `LegacyScript.ScholarshipRulesAgree` and the course and next-step comparisons assume those strings are the enum values of `types.ts`, since the HTML page is not part of this model.
- Common.Filter: its own contract states only the length bound. Membership, order and counts are stated by separate lemmas, because quantified postconditions on `Filter` slow every proof over the literal catalogs.
