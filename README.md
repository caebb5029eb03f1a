# Showroom Sensei — a verified model of the visit lifecycle

Showroom Sensei is a web application for a new-home showroom host. A
visitor fills in the intake form and an AI triage flow assigns them a lead
stage ('Hot Now', 'Researching' or 'Just Looking'). The visitor and their
visit are then stored, and the host works from the list of active visits.

This project models the logic of that application in Dafny:

- **Visit store** (`visit_store.dfy`, `budget.dfy`, `lead_funnel.dfy`). The
  `visitors`, `visits` and `inventoryModels` collections are maps from ids
  to documents, with a counter that hands out fresh ids. It covers:
  - `createVisitorAndVisit` with its budget-bucket parser;
  - `getActiveVisits`, which filters, joins, derives the host name and sorts
    newest first;
  - `getVisitDetails` and its two null cases;
  - `getInventory`;
  - `getAnalyticsData` and the lead-funnel accumulator it builds in place.
- **Intake page** (`intake.dfy`): the submit handler. It has a name guard,
  a seeding branch, and triage then create then navigate, with one catch
  for every failure.
- **Route guard and auth callbacks** (`auth_config.dfy`): the `authorized`
  decision, and the `jwt` and `session` callbacks that copy fields.
- **Sign-in page** (`login_page.dfy`): the table from error code to message,
  and the submit handler's `error`/`isLoading` state.
- **Follow-up panel** (`automated_followup.dfy`): the photo list (append,
  remove at an index) and the guarded recap generation.
- **Analytics summary** (`analytics_tab.dfy`) and **inventory search**
  (`inventory_tab.dfy`).
- **Intake schema** (`validators.dfy`), read as a parser that returns the
  typed form or the issues.

Shared modules:

- `text.dfy` holds the string operations the code calls: `startsWith`,
  `includes`, `toLowerCase`, `split`, `replace(/\D/g, '')`, the decimal
  value of a digit string and decimal printing. `parseInt` itself, with its
  NaN for a string without digits, is `BudgetParsing.ParseDigits` in
  `budget.dfy`.
- `seqs.dfy` holds array `filter` by element and by position.
- `types.dfy` holds the stored records.

Calls to code outside the model are parameters of the handler that makes
them: the triage flow, the recap generator, seeding, sign-in, file reading,
and the create action's failure. Each one is either a result value or a
failure. Timestamps are integers passed in. Navigation, toasts and outside
calls are recorded in sequence fields of the page classes.

## Model

| member | source | states |
|---|---|---|
| Text.DigitsOf | src/lib/actions.ts:29 | the result holds only digits, no more than the input has, and is the input itself when that is all digits |
| Text.DigitsOfExactly | src/lib/actions.ts:29 | each digit is kept exactly as many times as the input holds it, no non-digit is kept, and the digits keep their order |
| Text.Split | src/lib/actions.ts:34 | at least one part; two or more exactly when the separator occurs; no part contains it; the first part is a prefix followed by the separator when shorter than the text |
| Text.ToLower | src/components/inventory-tab.tsx:29 | same length, each character lower-cased (A to Z) |
| Seqs.Filter | src/components/inventory-tab.tsx:29 | every kept element is in the input and passes the test; every passing input element is kept; the result is an order-preserving subsequence, no longer than the input |
| Seqs.FilterCounts | src/components/inventory-tab.tsx:29 | every passing element occurs in the result exactly as often as in the input, every failing one not at all |
| Seqs.DropIndexInRange | src/components/tour/automated-followup.tsx:62 | filtering out an existing position removes exactly that element and keeps the rest in order |
| Seqs.DropIndexAbove | src/components/tour/automated-followup.tsx:62 | filtering out a position that does not exist changes nothing |
| Types.StageNamed | src/lib/types.ts:36 | a stage is returned exactly when the text is one of the three stage names, and it is the stage of that name |
| Validators.Parse | src/lib/validators.ts:4-11 | accepted exactly when the name is present and non-empty and the status is one of the three stages; the accepted form carries the fields unchanged; an empty name is refused with 'Name is required.' |
| Validators.ParseRaw | src/lib/validators.ts:4-11 | a typed form with a non-empty name passes the schema and comes back unchanged |
| Validators.RawParse | src/lib/validators.ts:4-11 | whatever the schema accepts is exactly the form it was built from |
| Validators.OptionalFieldsFree | src/lib/validators.ts:6-8 | budget, timeline and mustHave never decide acceptance |
| BudgetParsing.ParseBudget | src/lib/actions.ts:23-38 | the branch-by-branch reassignment of budgetMin/budgetMax yields the budget the token denotes |
| BudgetParsing.ThousandsOfShowNat | src/lib/actions.ts:29 | the digits of a decimal number read back as that number of thousands |
| BudgetParsing.ThousandsAfterSymbol | src/lib/actions.ts:29 | a one-character non-digit prefix does not change the thousands read |
| BudgetParsing.BelowToken | src/lib/actions.ts:27-29 | `<N` gives min 0 and max N×1000 |
| BudgetParsing.AboveToken | src/lib/actions.ts:30-32 | `>N` gives min N×1000 and a null max |
| BudgetParsing.RangeToken | src/lib/actions.ts:33-36 | `A-B` gives min A×1000 and max B×1000 |
| BudgetParsing.RangeNotOrdered | src/lib/actions.ts:33-36 | a range whose first number is the larger gives a max below the min |
| BudgetParsing.RangeExtraParts | src/lib/actions.ts:34-36 | `A-B-rest` parses like `A-B`: parts after the second are ignored |
| BudgetParsing.BelowTokenWithDash | src/lib/actions.ts:27-29 | `<` is tested before `-`: `<N-M` gives min 0 and a max read from the digits of N and M run together |
| BudgetParsing.BelowFiveDashSix | src/lib/actions.ts:27-29 | `<5-6` gives min 0 and max 56000 |
| BudgetParsing.DigitsAroundDash | src/lib/actions.ts:29 | the non-digits `<` and `-` drop out of `<x-y`, leaving the digits of x then y |
| BudgetParsing.UnrecognisedToken | src/lib/actions.ts:24-38 | no token, an empty one, or one without `<`/`>` prefix or `-` gives min 0 and a null max |
| BudgetParsing.BucketBelow500 | src/app/visitor-intake/page.tsx:124 | the form's `<500` bucket is 0 to 500000 |
| BudgetParsing.Bucket500To650 | src/app/visitor-intake/page.tsx:125 | the form's `500-650` bucket is 500000 to 650000 |
| BudgetParsing.Bucket650To800 | src/app/visitor-intake/page.tsx:126 | the form's `650-800` bucket is 650000 to 800000 |
| BudgetParsing.BucketAbove800 | src/app/visitor-intake/page.tsx:127 | the form's `>800` bucket is from 800000 with no upper bound |
| LeadFunnel.EffectiveStages | src/lib/actions.ts:149 | one effective stage per visit, 'Researching' for a visit without one |
| LeadFunnel.FirstAppearances | src/lib/actions.ts:148-157 | duplicate-free, and containing exactly the names that occur |
| LeadFunnel.FindEntry | src/lib/actions.ts:150 | the first row with that name, or -1 exactly when there is none |
| LeadFunnel.TallyStages | src/lib/actions.ts:148-157 | the in-place reduce yields one row per stage in order of first appearance, each with its count |
| LeadFunnel.AppendMissingStages | src/lib/actions.ts:159-165 | the forEach appends a zero row for each of the three stages without a row, in that order |
| LeadFunnel.LeadScoreData | src/lib/actions.ts:148-165 | the accumulator that is mutated in place ends equal to the lead funnel of the visits' stages |
| LeadFunnel.LeadScoreRows | src/lib/actions.ts:159-165 | no row name repeats and each of the three stages has a row |
| LeadFunnel.ExactlyThreeRows | src/lib/actions.ts:148-165 | when every stage is empty or one of the three names, the funnel has exactly three rows, all stage names |
| LeadFunnel.LeadScoreCounts | src/lib/actions.ts:148-157 | each row counts exactly the visits with its effective stage; a stage no visit has is zero |
| LeadFunnel.LeadScoreTotal | src/lib/actions.ts:148-165 | the row values add up to the number of visits |
| LeadFunnel.UnstagedCountsAsResearching | src/lib/actions.ts:149 | a visit without a stage changes the funnel exactly as a 'Researching' one does |
| LeadFunnel.TotalCoveringLabels | src/lib/actions.ts:150-155 | counting names under duplicate-free labels that cover them all counts each name once |
| VisitStore.HostName | src/lib/actions.ts:76 | the host name is a prefix of the email without '@', followed by '@' when shorter |
| VisitStore.HostNameBeforeAt | src/lib/actions.ts:76 | the host name is exactly the text before the first '@' |
| VisitStore.HostOfCreatedVisits | src/lib/actions.ts:16 | visits created with the fixed host email show 'sarah' as host |
| VisitStore.InsertNewestFirst | src/lib/actions.ts:83 | one insertion keeps start times non-increasing |
| VisitStore.InsertedIds | src/lib/actions.ts:83 | inserting a view with a new id adds exactly that id and keeps ids distinct |
| VisitStore.Store.CreateVisitorAndVisit | src/lib/actions.ts:15-57 | a new visitor with the form's name, then a new active visit pointing to it, started now, staged by the form's status, budgeted by its token, hosted by the fixed email; nothing else changes, the visit can be fetched, and every stored stage stays one of the three names (VisitStore.CreatedFrom states the whole change) |
| VisitStore.Store.GetActiveVisits | src/lib/actions.ts:63-84 | exactly the visits with a null endedAt, each once, joined with visitor and host, start times non-increasing |
| VisitStore.Store.GetVisitDetails | src/lib/actions.ts:91-114 | null exactly when the visit or its visitor is missing; otherwise that visit, endedAt preserved, with its visitor and host |
| VisitStore.Store.JoinAllVisits | src/lib/actions.ts:130-145 | every stored visit once, joined with its visitor and host |
| VisitStore.Store.GetAnalyticsData | src/lib/actions.ts:129-176 | all visits once, plus their lead funnel, whose total is the number of visits; when every stored stage is one of the three names, the funnel has exactly the three stage rows |
| VisitStore.Store.GetInventory | src/lib/actions.ts:120-123 | every inventory document once, as a model carrying its id: as many models as documents, with distinct ids |
| VisitStore.ModelIdsCount | src/lib/actions.ts:120-123 | a list of models with distinct ids has as many ids as models |
| VisitorIntake.OrUndefined | src/app/visitor-intake/page.tsx:65-67 | absent exactly when the answer is empty, else the answer |
| VisitorIntake.EmptyAnswersAbsent | src/app/visitor-intake/page.tsx:64-68 | each empty answer reaches triage as an absent field, and each non-empty one as itself |
| VisitorIntake.VisitorDataPassesSchema | src/app/visitor-intake/page.tsx:71-77 | the record handed to the create action passes the intake schema unchanged once the name guard passed |
| VisitorIntake.Page.HandleSubmit | src/app/visitor-intake/page.tsx:27-98 | empty name: a toast only; 'Seed Database': seeding, loading off, dashboard on success; otherwise loading stays on, triage then create; a visit is created exactly when triage and create succeed, and then the store holds exactly one new visitor with the typed name and one new active visit to it, started now, staged by the triaged status, with the typed timeline, must-have and the budget its token denotes, the inventory untouched; the page goes to `/visitors/{id}`; any failure goes to `/dashboard` with the store unchanged |
| VisitorIntake.Page.Seed | src/app/visitor-intake/page.tsx:41-60 | one seeding call; loading off either way; dashboard and success toast, or the error's message |
| VisitorIntake.Page.TriageAndCreate | src/app/visitor-intake/page.tsx:63-97 | triage with empty answers absent; if triage throws, no create call, the store unchanged, `/dashboard`; on success the store changed by exactly the new visitor and visit built from the typed answers and the triaged status |
| VisitorIntake.Page.Create | src/app/visitor-intake/page.tsx:71-97 | the create call with the typed answers and the triaged status; on success the store changed by exactly the new visitor and visit built from them, and the page goes to that visit; on failure the store unchanged and `/dashboard` |
| AuthConfig.Authorized | auth.config.ts:9-26 | intake paths allowed; denied exactly when logged out on a `/` path outside `/login` and the intake; redirected to `/` exactly when logged in on `/login` |
| AuthConfig.SignInLiftsDenial | auth.config.ts:19-21 | every path refused to a visitor is allowed to a signed-in user |
| AuthConfig.NoDenialWhenSignedIn | auth.config.ts:19-25 | a signed-in user is never refused and a visitor is never redirected |
| AuthConfig.SignInPageOpen | auth.config.ts:22-25 | the sign-in page is open to a visitor |
| AuthConfig.Jwt | auth.config.ts:37-44 | with a user, both claims become the user's; without one, the token is unchanged |
| AuthConfig.SessionCallback | auth.config.ts:27-36 | each truthy claim is copied onto the session user; the others are left alone |
| AuthConfig.SignInThenRead | auth.config.ts:27-44 | after sign-in and a session read, the session user carries the user's non-empty id and role |
| AnalyticsTab.AddAverage | src/components/analytics-tab.tsx:48-50 | the reduce adds 650000 once per element |
| AnalyticsTab.ComputeSummary | src/components/analytics-tab.tsx:44-58 | the total is the list length; hot leads at most the total; holds 0; pipeline 650000 per hot or researching visitor |
| AnalyticsTab.PipelineBounds | src/components/analytics-tab.tsx:46-50 | 650000 × hot leads ≤ pipeline ≤ 650000 × total |
| AnalyticsTab.AddVisitor | src/components/analytics-tab.tsx:45-50 | one more visitor adds one to the total, one hot lead only if hot, and 650000 only if hot or researching |
| AnalyticsTab.JustLookingAddsNothing | src/components/analytics-tab.tsx:48-50 | a 'Just Looking' visitor changes only the total |
| AnalyticsTab.EmptySummary | src/components/analytics-tab.tsx:12 | the module's empty visitor list gives four zeros |
| InventoryTab.FilterInventory | src/components/inventory-tab.tsx:29 | every result's lower-cased name contains the lower-cased term; every such model is kept, as many times as the inventory holds it and no other model at all; an order-preserving subsequence no longer than the inventory |
| InventoryTab.EmptyTermKeepsAll | src/components/inventory-tab.tsx:29 | an empty term returns the whole inventory |
| InventoryTab.CaseInsensitive | src/components/inventory-tab.tsx:29 | terms that lower-case alike give the same result |
| InventoryTab.SearchIdempotent | src/components/inventory-tab.tsx:29 | searching the result again with the same term changes nothing |
| LoginPage.ErrorMessage | src/app/login/page.tsx:42-57 | the three credential codes give the invalid-credentials message, 'auth/invalid-email' the email message, any other present code the unexpected-error message, no code the unknown-error message, each exactly |
| LoginPage.SameMessageSameClass | src/app/login/page.tsx:42-57 | two codes share a message only when they are in the same class |
| LoginPage.Page.constructor | src/app/login/page.tsx:21-26 | the page starts with empty fields, not loading, showing the `error` query parameter |
| LoginPage.Page.HandleSubmit | src/app/login/page.tsx:28-67 | one attempt with the current credentials; error cleared; on success a toast and `/dashboard`; on failure the mapped message shown and toasted; loading off either way, so submit is disabled only for an empty field |
| AutomatedFollowup.CustomerName | src/components/tour/automated-followup.tsx:79 | the visitor's name when present and non-empty, else 'Valued Customer' |
| AutomatedFollowup.ReadAll | src/components/tour/automated-followup.tsx:27-45 | all data URIs in file order exactly when every read succeeds, else none |
| AutomatedFollowup.Panel.HandleFileChange | src/components/tour/automated-followup.tsx:25-59 | all data URIs appended after the existing photos in file order, or photos unchanged when a read fails |
| AutomatedFollowup.Panel.RemovePhoto | src/components/tour/automated-followup.tsx:61-63 | an existing index removes exactly that photo and keeps the order; any other index changes nothing |
| AutomatedFollowup.Panel.HandleGenerate | src/components/tour/automated-followup.tsx:65-100 | with nothing entered, a toast only; otherwise one generator request, the recap becomes the result (null on failure), loading ends off |

## Left out

- Firestore, `revalidatePath`, the router and the toast hook are not called. The collections are maps in a class; navigation and toasts are recorded in sequences.
- The `Promise.all` joins in `getActiveVisits` and `getAnalyticsData`, and the file reads in `handleFileChange`, run one after another here. Concurrency does not change their results.
- The order of query results is unspecified in the source. The model picks documents in any order, so `getInventory`'s order and `getAnalyticsData`'s visit order are left open, and so is the order of active visits with equal start times.
- The triage, recap, upsell and day-summary AI flows are prompt templates sent to an outside model. Triage and recap are parameters that either return a value or fail.
- `seedDatabase`'s fixture content and batch commit are not modelled. VisitorIntake.Page.HandleSubmit says nothing about the store after a successful seed, where the source writes the fixtures; after a failed seed the store is unchanged.
- DigitsOf: its contract gives only digits, the length bound and the all-digits case; Text.DigitsOfExactly states the exact content and order, kept out of the function's contract because that contract is in scope of every budget proof.
- Filter: its contract gives membership both ways and order; Seqs.FilterCounts states the multiplicities, kept separate for the same reason.
- VisitorIntake.Page.Create: a create action that fails is modelled as writing nothing, although the source may already have stored the visitor when the visit write fails.
- Ids are natural numbers from a counter, not Firestore's random strings. `/visitors/{id}` prints the number in decimal.
- `Timestamp.now()` is the `now` parameter; start and end times are integers.
- parseInt reads any number of digits exactly. JavaScript's loss of precision beyond 2^53 is not modelled; a part without digits gives NaN.
- Text.ToLower lower-cases the letters A to Z only; JavaScript's full Unicode case mapping is not modelled.
- The `objectionData` constant, the chart configuration, the JSX, and the floating-point display of prices and pipeline are left out.
- `handleSend` in the follow-up panel only shows a toast and is left out.
- No code sets `endedAt`, so the model has no operation that ends a visit.
- The model follows the code where a reader might expect otherwise:
  - The analytics pipeline is a flat 650000 per hot or researching visitor, not a budget-weighted sum.
  - A triage failure creates no visit. It goes to the dashboard.
  - A stored stage outside the three names adds a further funnel row. The store's own writes keep every stage one of the three (VisitStore.Store.StagesNamed, kept by CreateVisitorAndVisit), so the funnel then has exactly three rows.
  - The create action does not check the name against the intake schema. Only the page's empty-name guard stands before it.
  - A budget range is not required to be ordered (BudgetParsing.RangeNotOrdered). The four buckets the form offers are ordered.
