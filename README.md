# Energipro — a Dafny model of the app's decision rules

Energipro is a client-side electricity-bill tracker with no backend. A visitor
signs in on a local form, watches a logo animation, and answers a three-step
onboarding quiz (appliances, house size, residents). The app then has three
tabs: plans, bill upload and dashboard. Everything is kept in the browser's
local storage under four keys: `energipro_user`, `energipro_bills`,
`energipro_quiz` and `energipro_plan`.

This project models the app's logic and proves properties of it:

| file | models |
|---|---|
| `records.dfy` | the records the screens exchange: bill, quiz answers, user, plan; the enforced free quota `FreeMonthlyQuota = 3` |
| `session_store.dfy` | local storage as a class over a key → entry map, with pure readers of the four slots |
| `page.dfy` | the page: screen flow, resume-from-storage, the handlers, the free plan's monthly quota, and the screens wired to the handlers |
| `dashboard.dfy` | the dashboard's figures (pure), using `real`: averages, the 5% forecast, the trend over the period-sorted copy, the chart series, the tip lists |
| `bill_upload.dfy` | the bill form (a class), remove-by-id, the limit caption |
| `auth_screen.dfy` | the sign-in form (a class): the ordered validation chain, the e-mail pattern, the display name |
| `quiz.dfy` | the quiz form (a class): appliance toggling, the bounded step counter, the residents count |
| `pricing_plans.dfy` | the plan panel (a class): Pro goes to the external checkout, button labels |
| `tariff_alert.dfy` | the tariff flag chosen by calendar month, its surcharge table, which tips it shows |

Handlers that change component state are class methods with `modifies`
clauses. Each is proved against a pure function or invariant:

- `Page.Home.Valid()` ties memory to storage through `Flow` and `Mirrors`.
- `Page.Startup` is the resume rule that the page's constructor is proved against.
- `Quiz.QuizForm.Valid()` keeps the step within 1..3.

A handler is only reachable while its screen is rendered. Each page handler
therefore requires the matching `appState`. For example, logout requires the
app screen, and the quiz callback requires the quiz screen.

The free plan's quota is enforced as 3 bills per calendar month of creation
(src/app/page.tsx:137, src/app/components/BillUpload.tsx:75). The plans tab
advertises 2 (src/app/components/PricingPlans.tsx:30, 173). The model keeps
the enforced value. `Page.EnforcedQuotaExceedsAdvertised` shows the
difference: a free account holding the advertised two bills this month may
still add a third.

Emptying the bill list does not write the bills slot, because only non-empty
lists are saved. A reload on the completed-quiz path therefore brings back the
last non-empty list (`Page.Home.HandleBillsUpdate`, `Page.Startup`).

Logout removes the plan slot but keeps the plan in memory. If the user signs
in again and never changes plan, the slot stays empty, and a reload falls back
to Free (`Page.ReloadRestoresSession`).

## Model

| member | source | states |
|---|---|---|
| SessionStore.UserIn | src/app/page.tsx:45-51 | the user slot reads as present exactly when its key holds a user entry, and then gives that entry's user |
| SessionStore.BillsIn | src/app/page.tsx:46-61 | the bills slot reads as present exactly when its key holds a bills entry, and then gives those bills |
| SessionStore.QuizIn | src/app/page.tsx:47-57 | the quiz slot reads as present exactly when its key holds a quiz entry, and then gives those answers |
| SessionStore.PlanIn | src/app/page.tsx:48-74 | the plan slot reads as present exactly when its key holds a plan entry, and then gives that plan |
| SessionStore.KeysDistinct | src/app/page.tsx:118-121 | the four storage keys are pairwise different |
| SessionStore.ReadAfterWrite | src/app/page.tsx:78-100 | each slot reads back what was last written to it, and writing one slot leaves the other three unchanged |
| SessionStore.Storage.SetItem | src/app/page.tsx:80 | the key now holds the new entry and every other key is unchanged |
| SessionStore.Storage.RemoveItem | src/app/page.tsx:118-121 | the key is gone and every other key is unchanged |
| Page.ThisMonth | src/app/page.tsx:133-136 | the filtered list is no longer than the bills and holds exactly the bills created in now's month and year |
| Page.CanUpload | src/app/page.tsx:129-140 | Pro and Premium may always upload; Free may upload iff fewer than 3 bills were created this month |
| Page.Home.CanUploadBill | src/app/page.tsx:129-140 | the page's guard is `CanUpload` over its own current plan and bills; `SubmitBill` is proved against it |
| Page.ThisMonthAppend | src/app/page.tsx:133-136 | filtering a concatenation is the concatenation of the filtered parts |
| Page.CountIgnoresAllButCreation | src/app/page.tsx:133-136 | two lists with the same creation stamps, position by position, give the same count: the typed period, amounts and ids never matter |
| Page.GatedSubmitKeepsQuota | src/app/page.tsx:137 | when the free guard admits a new bill, the month then holds at most 3 bills |
| Page.RemoveNeverRaisesCount | src/app/components/BillUpload.tsx:70-72 | removing by id never raises any month's count |
| Page.QuotaResetsInNewMonth | src/app/page.tsx:130-137 | with no bill created in now's month and year (including the same month of another year), the free plan may upload |
| Page.EnforcedQuotaExceedsAdvertised | src/app/page.tsx:137 | with the advertised 2 bills this month Free may still upload; after one more bill of this month it may not |
| Page.Startup | src/app/page.tsx:43-75 | no stored user: sign-in screen; stored user: app iff a completed quiz is stored, else quiz. Bills are loaded and the dashboard tab opened only on the app path with a bills slot. A stored plan is loaded regardless of user. The animation screen is never resumed |
| Page.AfterMount | src/app/page.tsx:84-87 | after mounting, the plan slot holds the resumed plan and the other three slots read as before |
| Page.StartupMirrors | src/app/page.tsx:43-87 | the resumed session satisfies the flow invariant and agrees with storage once the mount writes are done |
| Page.ReloadIsStable | src/app/page.tsx:43-87 | loading the page a second time resumes the same session and writes the same storage |
| Page.ReloadAfterLogout | src/app/page.tsx:117-126 | after the four keys are removed, a reload starts on the sign-in screen with no data and the Free plan |
| Page.ReloadRestoresSession | src/app/page.tsx:50-74 | reloading in the app with bills restores user, answers and bills on the dashboard tab; the plan survives only when its slot is stored |
| Page.Home.constructor | src/app/page.tsx:35-87 | the mounted page holds `Startup` of the stored items, satisfies `Valid`, and storage gets the mount writes |
| Page.Home.HandleLogin | src/app/page.tsx:89-92 | sets the user and moves to the animation, nothing else changes |
| Page.Home.HandleAnimationComplete | src/app/page.tsx:94-96 | moves to the quiz, nothing else changes |
| Page.Home.HandleQuizComplete | src/app/page.tsx:98-103 | stores the answers in memory and storage, moves to the app, opens the plans tab |
| Page.Home.HandleBillsUpdate | src/app/page.tsx:105-110 | replaces the bills; a non-empty list opens the dashboard and is saved, an empty one leaves the tab and the stored bills |
| Page.Home.HandleSelectPlan | src/app/page.tsx:112-115 | sets the plan and opens the upload tab; the plan slot is written only when the plan changed |
| Page.Home.HandleLogout | src/app/page.tsx:117-126 | removes the four keys, clears user, answers and bills, returns to sign-in; plan and tab stay |
| Page.Home.SelectTab | src/app/page.tsx:195 | only the active tab changes |
| Page.Home.SubmitCredentials | src/app/page.tsx:143-144 | the form keeps its fields; judged on the submitted fields, a rejected form shows its check's message and leaves page and storage unchanged, an accepted one clears the error, stores the identity and moves to the animation with that user |
| Page.Home.FinishQuiz | src/app/page.tsx:153-157 | with step 3 and a residents option, the stored answers are completed, carry the selection, the house size and the parsed residents count (within 1..5); the app opens on the plans tab and user, bills and plan stay; otherwise nothing changes |
| Page.Home.SubmitBill | src/app/page.tsx:243-248 | the missing-fields alert iff a field was empty; the limit alert iff all were filled and the page's guard refused; otherwise the old bills plus exactly the bill built from the form (period, parsed amounts, image, id, creation month), saved, on the dashboard, with the form cleared; an alert changes nothing; a free account never exceeds 3 bills in the month this way |
| Page.Home.RemoveBill | src/app/components/BillUpload.tsx:70-72 | only the bills (the id-filtered list) and the tab change, as the bills handler decides; no month's count rises; storage follows the bills handler |
| Page.Home.ChoosePlan | src/app/page.tsx:222-224 | Pro only opens the checkout and leaves page and storage as they were; any other plan becomes current and opens the upload tab, the rest of the page stays, and the plan slot is written iff the plan changed; the current plan never becomes Pro this way |
| Dashboard.HasAdvancedFeatures | src/app/components/Dashboard.tsx:16-18 | true iff the plan is Pro or Premium |
| Dashboard.InsertByMonth | src/app/components/Dashboard.tsx:38 | inserting keeps every bill and adds exactly the new one (length + 1, multiset) |
| Dashboard.SortByMonth | src/app/components/Dashboard.tsx:38 | the sorted copy is a permutation of the bills |
| Dashboard.InsertKeepsSorted | src/app/components/Dashboard.tsx:38 | inserting into a period-ordered list keeps it ordered |
| Dashboard.SortIsSorted | src/app/components/Dashboard.tsx:38 | the sorted copy is in ascending period order |
| Dashboard.MinFirstIsLeast | src/app/components/Dashboard.tsx:50 | the earliest smallest-period bill is a bill of the list whose period is not above any other |
| Dashboard.MaxLastIsGreatest | src/app/components/Dashboard.tsx:51 | the latest largest-period bill is a bill of the list whose period is not below any other |
| Dashboard.SortFirst | src/app/components/Dashboard.tsx:50 | the first bill of the stable sort is the earliest bill with the smallest period |
| Dashboard.SortLast | src/app/components/Dashboard.tsx:51 | the last bill of the stable sort is the latest bill with the largest period |
| Dashboard.TotalAppend | src/app/components/Dashboard.tsx:40-41 | the total of a concatenation is the sum of the totals |
| Dashboard.Total | src/app/components/Dashboard.tsx:40-41 | the sum of one measure over the bills; additive by `TotalAppend`, order-free by `TotalPermutation` |
| Dashboard.TotalPermutation | src/app/components/Dashboard.tsx:40-41 | any reordering of the bills has the same totals |
| Dashboard.Average | src/app/components/Dashboard.tsx:42-43 | the average times the number of bills is the total |
| Dashboard.AverageIsOrderFree | src/app/components/Dashboard.tsx:40-43 | the averages do not depend on the order of the bills |
| Dashboard.Predicted | src/app/components/Dashboard.tsx:46-47 | the forecast times the number of bills is 1.05 times the total |
| Dashboard.TrendOf | src/app/components/Dashboard.tsx:50-53 | up when the last bill of the period-sorted copy reads strictly more than the first, else down; characterised by `TrendCompareEnds` and the trend lemmas below |
| Dashboard.TrendCompareEnds | src/app/components/Dashboard.tsx:50-53 | the trend is up iff the latest largest-period bill's figure is strictly greater than the earliest smallest-period bill's |
| Dashboard.SingleBillTrendIsDown | src/app/components/Dashboard.tsx:52-53 | a single bill gives a falling trend |
| Dashboard.MinFirstIgnoresLaterPeriod | src/app/components/Dashboard.tsx:50 | inserting a bill with a period above the smallest keeps the first bill of the sort |
| Dashboard.MaxLastIgnoresEarlierPeriod | src/app/components/Dashboard.tsx:51 | inserting a bill with a period below the largest keeps the last bill of the sort |
| Dashboard.TrendIgnoresMiddlePeriod | src/app/components/Dashboard.tsx:50-53 | inserting anywhere a bill whose period lies strictly between the first and last leaves the trend unchanged |
| Dashboard.ChartSeries | src/app/components/Dashboard.tsx:56-71 | one non-forecast point per bill in period order, plus one forecast point carrying the forecasts iff the tier is paid; length n or n+1 |
| Dashboard.ApplianceTips | src/app/components/Dashboard.tsx:77-88 | one tip per owned appliance among ac, shower, fridge, washer, in that order; empty iff none is owned |
| Dashboard.Tips | src/app/components/Dashboard.tsx:74-96 | 1 to 4 tips; each appliance tip iff the appliance is owned; the two generic tips iff none is; in fixed order |
| Dashboard.PersonalTips | src/app/components/Dashboard.tsx:98-116 | empty for Free; otherwise, in order, the rising tip iff the trend is up, the high-use tip iff the average > 400, the per-capita tip iff residents ≠ 0 and average/residents > 150; at most 3 |
| Dashboard.Render | src/app/components/Dashboard.tsx:20-35 | nothing is computed for no bills, and a report for any non-empty list |
| Dashboard.RenderGating | src/app/components/Dashboard.tsx:63-116 | the report's chart has n or n+1 points by tier, personal tips are empty for Free, appliance tips number 1 to 4 |
| Dashboard.TwoBillScenario | src/app/components/Dashboard.tsx:38-53 | January 300 kWh and March 400 kWh give average 350, trend up, forecast 367.5 |
| BillUpload.ImageOf | src/app/components/BillUpload.tsx:57 | the new bill has an image iff a non-empty preview is set, and then it is that preview |
| BillUpload.BillForm.constructor | src/app/components/BillUpload.tsx:19-22 | the form starts with empty fields and no preview |
| BillUpload.BillForm.Fill | src/app/components/BillUpload.tsx:19-21 | typing sets the three text fields and keeps the preview |
| BillUpload.BillForm.AttachImage | src/app/components/BillUpload.tsx:28-30 | a read image becomes the preview and the text fields stay |
| BillUpload.BillForm.ClearImage | src/app/components/BillUpload.tsx:154 | the preview's remove button drops the photo and keeps the text fields |
| BillUpload.BillForm.Submit | src/app/components/BillUpload.tsx:39-68 | an empty field alerts first, then a refused quota; otherwise the old bills followed by exactly one new bill; the form is cleared only on success |
| BillUpload.RemoveById | src/app/components/BillUpload.tsx:70-72 | exactly the bills without that id remain |
| BillUpload.RemoveByIdAppend | src/app/components/BillUpload.tsx:70-72 | removing distributes over concatenation, so relative order is kept |
| BillUpload.RemoveAbsentId | src/app/components/BillUpload.tsx:70-72 | removing an id no bill carries is the identity |
| BillUpload.RemoveUndoesSubmit | src/app/components/BillUpload.tsx:61-72 | removing the bill just submitted under a fresh id gives back the previous list |
| BillUpload.UploadLimitText | src/app/components/BillUpload.tsx:74-77 | "3 contas/mês", built from the enforced quota, for Free; "Ilimitado" otherwise |
| AuthScreen.FirstAt | src/app/components/AuthScreen.tsx:51 | the index of the first '@', or the length when there is none |
| AuthScreen.IsValidEmail | src/app/components/AuthScreen.tsx:37-38 | the e-mail check as a scan; equal to the pattern by `EmailCheckMatchesPattern` |
| AuthScreen.EmailCheckSound | src/app/components/AuthScreen.tsx:37-38 | every e-mail the scan accepts matches the pattern |
| AuthScreen.EmailCheckComplete | src/app/components/AuthScreen.tsx:37-38 | every e-mail the pattern matches passes the scan |
| AuthScreen.EmailCheckMatchesPattern | src/app/components/AuthScreen.tsx:37-38 | the scan accepts exactly the pattern's e-mails |
| AuthScreen.LocalPart | src/app/components/AuthScreen.tsx:51 | the local part is a prefix without '@', followed by '@' when shorter than the e-mail |
| AuthScreen.LocalPartOfValidEmail | src/app/components/AuthScreen.tsx:51 | for an accepted e-mail the local part is non-empty and the e-mail is that part, '@', then the domain |
| AuthScreen.Message | src/app/components/AuthScreen.tsx:26-45 | the text shown for each failed check is never empty, so a failure is always visible |
| AuthScreen.MessageIdentifiesError | src/app/components/AuthScreen.tsx:26-45 | two checks show the same text iff they are the same check |
| AuthScreen.Validate | src/app/components/AuthScreen.tsx:21-52 | each error happens iff every earlier check passed and its own failed, in the order fields, name, e-mail, password; on success the e-mail is kept and the name is the local part when signing in, the typed name when registering |
| AuthScreen.AuthForm.constructor | src/app/components/AuthScreen.tsx:15-19 | the form starts in sign-in mode with empty fields |
| AuthScreen.AuthForm.Fill | src/app/components/AuthScreen.tsx:16-18 | typing sets the three fields and keeps the mode and error |
| AuthScreen.AuthForm.Submit | src/app/components/AuthScreen.tsx:21-58 | the first failing check's message is shown and nothing is stored or reported; otherwise the error is clear, the user is stored and reported with the same e-mail and name |
| AuthScreen.AuthForm.ToggleMode | src/app/components/AuthScreen.tsx:150-153 | the mode flips and the error clears |
| Quiz.RemoveAll | src/app/components/Quiz.tsx:40 | every occurrence of the id is dropped, everything else kept, and the list shrinks when the id was present |
| Quiz.Toggle | src/app/components/Quiz.tsx:37-43 | a present id is removed (shorter list), an absent id is appended at the end, other ids are unaffected |
| Quiz.RemoveAbsent | src/app/components/Quiz.tsx:40 | filtering out an absent id is the identity |
| Quiz.RemoveAllAppend | src/app/components/Quiz.tsx:40 | filtering distributes over concatenation |
| Quiz.ToggleTwiceRestores | src/app/components/Quiz.tsx:37-43 | toggling an absent id twice gives the original selection |
| Quiz.RemoveAllKeepsDistinct | src/app/components/Quiz.tsx:40 | filtering keeps a duplicate-free list duplicate-free |
| Quiz.ToggleKeepsDistinct | src/app/components/Quiz.tsx:37-43 | a toggle keeps the selection duplicate-free |
| Quiz.LeadingDigits | src/app/components/Quiz.tsx:50 | the longest all-digit prefix |
| Quiz.ResidentsOf | src/app/components/Quiz.tsx:50 | the count is at least 1, and a single non-zero digit gives its own value |
| Quiz.ResidentOptionsGiveOneToFive | src/app/components/Quiz.tsx:181-187 | the i-th option gives i + 1, so the count is within 1..5 |
| Quiz.NextDisabled | src/app/components/Quiz.tsx:226-229 | "Next" is greyed out on step 1 with no appliance and on step 2 with no house size; `QuizForm.Next` is proved against it |
| Quiz.QuizForm.constructor | src/app/components/Quiz.tsx:32-35 | the quiz starts on step 1 with nothing chosen |
| Quiz.QuizForm.ToggleAppliance | src/app/components/Quiz.tsx:37-43 | the selection becomes its toggle, the rest stays |
| Quiz.QuizForm.ChooseHouseSize | src/app/components/Quiz.tsx:138-153 | an offered house size is recorded, the rest stays |
| Quiz.QuizForm.ChooseResidents | src/app/components/Quiz.tsx:179-195 | an offered residents option is recorded, the rest stays |
| Quiz.QuizForm.Back | src/app/components/Quiz.tsx:214-217 | the step goes down by one only above step 1 and stays within 1..3 |
| Quiz.QuizForm.Next | src/app/components/Quiz.tsx:223-229 | the step goes up by one only below step 3 and when not greyed out (no appliance on step 1, no house size on step 2) |
| Quiz.QuizForm.Finish | src/app/components/Quiz.tsx:45-53 | answers exist iff on step 3 with a residents option; they are completed, carry the selection and house size, and the residents count parsed from the chosen option, which lies in 1..5 |
| PricingPlans.EffectOf | src/app/components/PricingPlans.tsx:81-90 | Pro opens the checkout link; any other plan is reported, with that plan |
| PricingPlans.PricingPanel.constructor | src/app/components/PricingPlans.tsx:18 | the highlighted plan starts as the current plan |
| PricingPlans.PricingPanel.SelectPlan | src/app/components/PricingPlans.tsx:81-90 | the chosen plan is highlighted and exactly its one effect happens |
| PricingPlans.ButtonDisabled | src/app/components/PricingPlans.tsx:161 | a plan's button is disabled iff it is the current plan; tied to the label by `DisabledIffCurrentLabel` |
| PricingPlans.ButtonLabel | src/app/components/PricingPlans.tsx:168 | the label by priority: current plan, then Pro, then highlighted, then the default; characterised by `DisabledIffCurrentLabel` and `SelectedLabel` |
| PricingPlans.DisabledIffCurrentLabel | src/app/components/PricingPlans.tsx:159-168 | a button is disabled iff it reads "Plano Atual" |
| PricingPlans.SelectedLabel | src/app/components/PricingPlans.tsx:168 | the highlighted plan reads "Selecionado" iff it is neither the current plan nor Pro |
| TariffAlert.MonthsWith | src/app/components/TariffAlert.tsx:20-31 | a flag's months are exactly the months 0..11 mapped to it |
| TariffAlert.FlagForMonth | src/app/components/TariffAlert.tsx:20-31 | the flag chosen from the 0-based month; its table is stated by `MonthsOfEachFlag` |
| TariffAlert.MonthsOfEachFlag | src/app/components/TariffAlert.tsx:23-31 | red 2 for 11, 0, 1; red 1 for 2–4; yellow for 5–7; green for 8–10; three months each |
| TariffAlert.SurchargeCents | src/app/components/TariffAlert.tsx:43-73 | the surcharge per 100 kWh in centavos for each flag; ordered by `SurchargeIncreasesWithSeverity` |
| TariffAlert.ShowsSavingTips | src/app/components/TariffAlert.tsx:107 | the saving tips show for every flag but green |
| TariffAlert.ShowsAcShowerTip | src/app/components/TariffAlert.tsx:116 | the extra tip shows when the flag's name contains "vermelha"; characterised by `AcShowerTipOnlyWhenRed` |
| TariffAlert.SurchargeIncreasesWithSeverity | src/app/components/TariffAlert.tsx:43-73 | a more severe flag has a strictly higher surcharge per 100 kWh (0, 2.99, 6.50, 9.79) |
| TariffAlert.AcShowerTipOnlyWhenRed | src/app/components/TariffAlert.tsx:107-116 | the extra AC/shower tip shows iff the flag is one of the two red levels, and only alongside the saving tips |

## Left out

- Rendering is not modelled: JSX, styling, icons, the chart library and the logo animation's timers. Finishing the animation is one event (`HandleAnimationComplete`).
- Storage holds values that are already parsed. JSON encoding and decoding, and any storage value of the wrong shape, are outside the model: a wrong-typed slot reads as absent, and a stored plan is one of the three tiers.
- Dates are parameters. `Date.now()` ids are opaque strings, and "now" and each bill's creation instant are `Stamp(year, month)` values in local time. ISO-string parsing, time zones and `toLocaleDateString` are not modelled, so chart points carry the bill's period instead of a month name.
- BillUpload.BillForm.Submit: `parseFloat` is the parameter `parseNumber`, so a NaN consumption or value is not modelled.
- Dashboard.Average: figures are `real`, not IEEE doubles, so rounding and NaN are not modelled.
- Dashboard.SortByMonth: `localeCompare` is modelled as code-point order, which agrees with it on `YYYY-MM` periods.
- Quiz.ResidentsOf: `parseInt`'s leading whitespace, sign and radix prefixes are not modelled, because the radio options only offer "1" to "5".
- AuthScreen.Validate: the password length counts code points, while JavaScript counts UTF-16 units. The two differ only for characters outside the Basic Multilingual Plane.
- FileReader is not modelled. The attached image is an opaque data-URL string.
- `alert` and `window.open` become outcome values (`BillUpload.SubmitOutcome`, `PricingPlans.Effect`).
- React scheduling is not modelled. Each handler, together with the save effects its state change triggers, is one atomic step. The page's mount is one step: load, then write-back.
- Page.Home.SubmitBill: `canUpload` is computed at render time in the source and at submit time in the model. Both use the same `now`.
- The three info cards shown on an empty upload tab are presentation only.
- The wording of tips and of the tariff banner is not modelled. Tips are enumerated values.
