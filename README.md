# DefenSys web front-end: the scan, selection, pricing and session logic

DefenSys is a marketing and dashboard front-end for a security-scanning product. Almost all of
its views render fixed mock data. This project models the four places where it has behaviour:

- **Scan dialog** (`Scan`, scan.dfy). A simulated scan walks five weighted phases. Each phase
  reports 11 progress samples, at phase-local progress 0, 10, …, 100. The dialog then reveals
  four fixed findings one at a time and ends in a completed state at 100%. Each `await`,
  with the state update after it, is one `Snapshot` in the dialog's `trace`. So are the reset
  before the first `await` and the completion after the last, which wait 0: a run with N phases
  and M findings has 11N+M awaits and 11N+M+2 snapshots. A snapshot holds the
  wait before it, the phase label, the progress, the findings shown and the two flags.
  `ScanRun` specifies a whole run, and `StartScan` is proved to emit exactly that run.
  Progress is an exact `real`.
- **GitHub dialog** (`GitHub`, github.dfy). This covers the simulated connect, the
  toggle-based selection of repository ids, and starting a scan over the selected full names.
- **Plan dialog** (`Pricing`, pricing.dfy). It picks the plan to show, with Developer as the
  default. It parses the plan's price text as `parseInt` does, derives the yearly price from
  `Math.round` over exact numbers, and picks the displayed price and period by billing cycle.
  It chooses between subscribing and contacting sales, and it tracks the processing flag of a
  subscription.
- **Authentication context** (`Auth`, auth.dfy). This is the signed-in user, the
  authenticated and redirect flags, and local storage as a `map` keyed by `"defensis_user"`.
  It covers login, signup, logout, user update and the mount-time restore.

Each component whose fields change becomes a class. Its methods state the whole new state.
Pure derivations are functions, and the properties are lemmas about those functions.
Collaborators the source only calls are modelled as data:
- Each toast becomes an entry in a `notices` field.
- Closing a dialog (the `onClose` callback) sets `closeRequested`.
- `console.log` of the scanned names becomes `scanRequests`.
- Timers become the `wait` of a snapshot, or are dropped where nothing observes them.

Three consequences of the code are worth stating on their own:
- Each phase waits 11 times one tenth of its duration, because its progress loop runs for
  0, 10, …, 100. The five phases therefore wait 9900 ms, and a whole run waits 11900 ms
  (`Scan.DialogRun`).
- Starting a scan while one runs or has completed raises no error. The auto-start guard
  just does nothing (`Scan.ScanModal.OpenChanged`).
- Reopening the dialog after completion never restarts the scan and keeps the results.

## Model

| member | source | states |
|---|---|---|
| `Scan.PhaseWalk` | src/components/ScanModal.tsx:90-98 | walking n phases emits exactly 11 updates per phase |
| `Scan.PhaseWalkAt` | src/components/ScanModal.tsx:90-98 | update j of the walk belongs to phase j/11: it carries that phase's label, a wait of a tenth of its duration, and progress (100·(j/11) + 10·(j%11))/N |
| `Scan.WalkUpdate` | src/components/ScanModal.tsx:92-97 | every walk update is labelled with its phase's name and reports progress within [0, 100] |
| `Scan.PhaseBoundary` | src/components/ScanModal.tsx:95-98 | the last sample of phase i equals the first sample of phase i+1, both (i+1)·100/N |
| `Scan.WalkEndsAtHundred` | src/components/ScanModal.tsx:97 | the final sample of the final phase is exactly 100 |
| `Scan.RevealSteps` | src/components/ScanModal.tsx:102-105 | the reveal stage emits exactly one update per finding |
| `Scan.RevealStepsAt` | src/components/ScanModal.tsx:102-105 | reveal k waits 500 ms and shows exactly the first k+1 findings, in list order, with status found |
| `Scan.RevealOneAtATime` | src/components/ScanModal.tsx:104 | each reveal appends exactly the next finding to what the previous one showed |
| `Scan.RunProgressAt` | src/components/ScanModal.tsx:84-110 | a run has 11N + M + 2 updates: the reset at 0, the walk samples, the reveals at the walk's final progress, then completion at 100 |
| `Scan.RunProgressMonotone` | src/components/ScanModal.tsx:84-110 | over a whole run, progress stays within [0, 100] and never decreases from one update to any later one |
| `Scan.CompleteOnlyAtEnd` | src/components/ScanModal.tsx:107-110 | only the last update of a run is complete, and every earlier one is scanning |
| `Scan.RunEndsWithAllFindings` | src/components/ScanModal.tsx:102-110 | the completed state shows all M findings in list order, each unchanged except for status found |
| `Scan.PhaseWalkWait` | src/components/ScanModal.tsx:95-96 | the phase walk waits 11·Σduration/10 in all |
| `Scan.RevealWaitTotal` | src/components/ScanModal.tsx:103 | the reveal stage waits 500 ms per finding |
| `Scan.RunWait` | src/components/ScanModal.tsx:90-105 | a whole run waits 11·Σduration/10 + 500·M |
| `Scan.DialogRun` | src/components/ScanModal.tsx:34-40 | for the dialog's five phases: 9900 ms of walk, 11900 ms in all, 61 updates, and the third phase starts at 40% |
| `Scan.ScanModal.constructor` | src/components/ScanModal.tsx:26-31 | the dialog starts idle at 0% with no label and no results; the repository name defaults to defensis-web-core |
| `Scan.ScanRun` | src/components/ScanModal.tsx:84-116 | a run has 11 updates per phase, one per finding, a reset and a completion: it starts with the reset (scanning, 0%, no results) and ends with the completion (complete, 100%, every finding revealed) |
| `Scan.ScanModal.StartScan` | src/components/ScanModal.tsx:84-116 | a start first resets (scanning, 0%, no results, not complete), then emits exactly `ScanRun`; it ends complete, not scanning, at 100%, labelled "Scan completed!", showing the revealed findings, with one toast whose count is the number of findings |
| `Scan.ScanModal.WalkPhases` | src/components/ScanModal.tsx:90-99 | the outer phase loop emits exactly the phase walk of all phases and leaves the label and progress that walk ends on (the last phase's name and 100% when there is a phase) |
| `Scan.ScanModal.RunPhase` | src/components/ScanModal.tsx:91-98 | one phase sets its label, then emits its 11 samples and ends at (i+1)·100/N |
| `Scan.ScanModal.RevealFindings` | src/components/ScanModal.tsx:102-105 | the reveal loop ends with the results equal to the findings with status found, having emitted one update per finding |
| `Scan.ScanModal.OpenChanged` | src/components/ScanModal.tsx:138-142 | the scan starts exactly when the dialog is open and neither scanning nor complete; otherwise nothing changes, so a completed scan is never restarted |
| `GitHub.RemoveAll` | src/components/GitHubModal.tsx:91 | filtering out an id removes every occurrence of it and keeps every other id with its multiplicity |
| `GitHub.Toggle` | src/components/GitHubModal.tsx:88-94 | an absent id is appended at the end, and a present id has every occurrence removed; membership of the id flips and every other id keeps its membership |
| `GitHub.RemoveAllAbsent` | src/components/GitHubModal.tsx:91 | filtering out an absent id leaves the selection as it was |
| `GitHub.RemoveAllKeepsNoDuplicates` | src/components/GitHubModal.tsx:91 | filtering keeps a duplicate-free selection duplicate-free |
| `GitHub.RemoveAllShrinksByOne` | src/components/GitHubModal.tsx:91 | filtering a selected id out of a duplicate-free selection shortens it by exactly one |
| `GitHub.ToggleTwice` | src/components/GitHubModal.tsx:89-93 | toggling the same id twice restores the membership set, and restores the exact sequence when the id was absent |
| `GitHub.ToggleKeepsNoDuplicates` | src/components/GitHubModal.tsx:89-93 | a duplicate-free selection stays duplicate-free after any toggle |
| `GitHub.SelectedNames` | src/components/GitHubModal.tsx:106-108 | a name is scanned exactly when it is the full name of a listed repository whose id is selected; no more names than repositories |
| `GitHub.SelectedNamesAppend` | src/components/GitHubModal.tsx:106-108 | the names of a concatenated list are the names of its first part followed by those of its second, so the names keep repository-list order |
| `GitHub.SelectedNamesOne` | src/components/GitHubModal.tsx:106-108 | one repository contributes exactly its full name when its id is selected, and nothing otherwise |
| `GitHub.SelectedNamesByMembership` | src/components/GitHubModal.tsx:106-108 | the scanned names depend only on which ids are selected, not on the order they were clicked in |
| `GitHub.SelectAllInOrder` | src/components/GitHubModal.tsx:106-108 | selecting every repository scans all full names in repository-list order |
| `GitHub.SelectedCount` | src/components/GitHubModal.tsx:106-112 | for a duplicate-free selection of ids of distinct-id repositories, the count in the toast equals the number of names scanned |
| `GitHub.GitHubModal.constructor` | src/components/GitHubModal.tsx:25-29 | the dialog starts disconnected, not loading, with no repositories and no selection |
| `GitHub.GitHubModal.ConnectGitHub` | src/components/GitHubModal.tsx:63-86 | loading is set on entry and cleared on exit; the dialog ends connected, listing the mock repositories, with a connected toast |
| `GitHub.GitHubModal.RepoSelect` | src/components/GitHubModal.tsx:88-94 | the selection becomes its toggle, and stays duplicate-free |
| `GitHub.GitHubModal.StartScanning` | src/components/GitHubModal.tsx:96-118 | an empty selection gives an error toast and returns without closing; otherwise the selected full names in repository order are logged, the toast counts the selected ids, and the dialog closes |
| `Pricing.CurrentPlan` | src/components/PricingModal.tsx:102 | the shown plan is the selected one if given, otherwise plans[1], Developer at "29" per "/month" |
| `Pricing.ParseInt` | src/components/PricingModal.tsx:104 | after leading white space, text that does not start with a sign or a digit is NaN; text starting with a digit gives a non-negative number; a negative result needs a leading '-' |
| `Pricing.ParseIntDecimal` | src/components/PricingModal.tsx:104 | parseInt reads back the decimal text of any n, whatever non-digit text follows it |
| `Pricing.ParseDecimalText` | src/components/PricingModal.tsx:104 | a price text that is exactly the decimal form of n parses to n |
| `Pricing.ParseIntNaN` | src/components/PricingModal.tsx:104 | text starting with something other than white space, a sign or a digit parses to NaN |
| `Pricing.DeveloperPriceParses` | src/components/PricingModal.tsx:48 | the default plan's price "29" parses to 29 |
| `Pricing.YearlyPrice` | src/components/PricingModal.tsx:103-105 | the yearly price is the integer nearest to monthly·12·0.8, with halves rounded up (Math.round) |
| `Pricing.YearlyPriceExamples` | src/components/PricingModal.tsx:105 | 29 → 278, 99 → 950, 299 → 2870, 0 → 0 |
| `Pricing.SavingNonNegative` | src/components/PricingModal.tsx:198 | for a non-negative monthly price, the yearly price is between 0 and 12·monthly, so the displayed saving is never negative |
| `Pricing.QuoteCycles` | src/components/PricingModal.tsx:102-107 | for any shown plan whose price parses to m ≥ 0, the monthly display is m and the yearly display is twelve payments less the saving shown (line 198), which lies between 0 and 12·m |
| `Pricing.DefaultQuote` | src/components/PricingModal.tsx:102-107 | with no selection the dialog shows $29 "/month" or $278 "/year" |
| `Pricing.CustomPlanIsNaN` | src/pages/Pricing.tsx:99 | the pricing page's "Contact us" plan displays NaN on either cycle |
| `Pricing.Saving` | src/components/PricingModal.tsx:194-198 | the saving shown is the integer nearest to a fifth of twelve monthly payments, halves rounded down |
| `Pricing.PlanBranches` | src/components/PricingModal.tsx:213-247 | among the listed plans only Enterprise contacts sales, and only Free shows "No credit card required" |
| `Pricing.PricingModal.constructor` | src/components/PricingModal.tsx:24-26 | the dialog starts on monthly billing, not processing |
| `Pricing.PricingModal.SetBillingCycle` | src/components/PricingModal.tsx:161-171 | the billing toggle sets the cycle |
| `Pricing.PricingModal.HandleSubscribe` | src/components/PricingModal.tsx:109-131 | processing is set on entry and cleared on every exit; success toasts the plan name and closes, and failure toasts the error and stays open |
| `Pricing.PricingModal.HandleContactSales` | src/components/PricingModal.tsx:133-139 | contacting sales toasts and closes |
| `Pricing.PricingModal.PressPrimary` | src/components/PricingModal.tsx:213-240 | the main button contacts sales for Enterprise, leaving the processing flag alone, and subscribes otherwise |
| `Auth.EmailPrefix` | src/contexts/AuthContext.tsx:62 | the login name is the longest '@'-free prefix of the email, so it is all of the email when there is no '@' |
| `Auth.EmailPrefixOfAddress` | src/contexts/AuthContext.tsx:62 | the name of local@domain is local |
| `Auth.MergeCompose` | src/contexts/AuthContext.tsx:113-119 | two successive updates equal one update whose patch takes each field from the later patch where it has one, otherwise from the earlier |
| `Auth.MergeLaws` | src/contexts/AuthContext.tsx:113-119 | an empty patch keeps the user, and applying a patch twice equals applying it once |
| `Auth.RestoreAsWritten` | src/contexts/AuthContext.tsx:37-50 | as written, the session authenticates for a stored user and for a stored null alike |
| `Auth.RestoreAsWrittenAuthenticatesNobody` | src/contexts/AuthContext.tsx:42-44 | a stored null leaves the session authenticated without a user |
| `Auth.Restore` | src/contexts/AuthContext.tsx:37-50 | mount restore authenticates exactly when a stored user record exists and adopts that user; any other non-empty record is removed |
| `Auth.RestoreAgreesExceptNull` | src/contexts/AuthContext.tsx:40-48 | the corrected restore differs from the source only on a stored null |
| `Auth.AuthProvider.constructor` | src/contexts/AuthContext.tsx:32-50 | mounting starts signed out and applies the corrected restore `Auth.Restore`; it differs from lines 43-44 as written only on a stored `null`, which it removes instead of authenticating (see "## Findings"); the invariant holds |
| `Auth.AuthProvider.Login` | src/contexts/AuthContext.tsx:52-77 | succeeds exactly for non-empty email and password; on success the user is {"1", email, email prefix, free}, both flags are set and the store holds the user; on failure nothing changes |
| `Auth.AuthProvider.Signup` | src/contexts/AuthContext.tsx:79-104 | succeeds exactly for non-empty email, password and name; the stored user carries the given name and plan free; on failure nothing changes |
| `Auth.AuthProvider.Logout` | src/contexts/AuthContext.tsx:106-111 | the user is cleared, both flags are cleared, and the stored record is removed |
| `Auth.AuthProvider.UpdateUser` | src/contexts/AuthContext.tsx:113-119 | with no user nothing changes; otherwise the user becomes the merge, the store holds it and the flags are kept |
| `Auth.AuthProvider.SetRedirectToDashboard` | src/contexts/AuthContext.tsx:35 | the exposed setter sets the redirect flag |

Every method of `Auth.AuthProvider` keeps `Valid()`: authenticated exactly when there is a user,
and that user is the stored record. Every method of `GitHub.GitHubModal` keeps its selection
duplicate-free. `Scan.ScanModal` keeps a completed run's final state.

## Findings

| source | as written | input that shows it | evidently intended | confidence | as-written member | corrected member |
|---|---|---|---|---|---|---|
| src/contexts/AuthContext.tsx:40-44 | any stored text that JSON.parse accepts is adopted: `setUser(userData)`, then `setIsAuthenticated(true)` | the record `"null"` under `defensis_user`: parse gives null, so user is null while authenticated is true | authenticate only for a stored user record; treat a null record like an unparseable one and remove it | medium, not executed | `Auth.RestoreAsWritten` (`Auth.RestoreAsWrittenAuthenticatesNobody`) | `Auth.Restore` (`Auth.RestoreAgreesExceptNull`), used by `Auth.AuthProvider.constructor` |

## Left out

- Rendering: JSX, class strings, dialogs, badges, icons and the toast display. Toasts are only recorded as `notices`.
- React scheduling: setters are plain field assignments, and a re-render between two updates is not modelled.
  `StartScan` runs a whole scan in one call, so the in-flight double start that the scan guard blocks falls outside a call.
- Real timing: timers appear only as the `wait` of a scan snapshot. The waits in connect, subscribe, login and signup are dropped.
- `localStorage` is a `map`. A stored text is classified as a serialised user, `null`, or unparseable.
  JSON values that parse but are neither a user nor null (a number, say) are not modelled.
- JSON.stringify and JSON.parse themselves are foreign calls; a stored user is the user value.
- `Auth.Merge`: a patch field that is present but explicitly `undefined` is treated as absent, not as an override with `undefined`.
- Pricing.ParseInt: the `0x` hexadecimal prefix that `parseInt` honours without a radix is not modelled; no plan price starts with it.
  `parseInt`'s value is a double, exact only up to 2^53, while the model's value is an unbounded integer.
- Floating point: `Math.round(monthly * 12 * 0.8)` is computed exactly as `(96·monthly + 5) / 10`.
  For whole monthly prices the exact 9.6·monthly lies at least 0.1 from a half. When |monthly| < 5·10^13, the double product
  is within 0.1 of it, so the two agree; every plan price is far below that. For larger prices they can differ:
  monthly = 84757847511144 gives the double product 813675336106982.5, which rounds up, while the model gives 813675336106982.
- The `catch` branches of login and signup run only when `localStorage.setItem` throws (storage full or disabled).
  The source then reports failure after the user and both flags are already set, with nothing stored.
  The model's store is a `map` that never fails, so these branches are not modelled.
- The `catch` branch of connect is not modelled: the awaited timer never rejects and nothing else in the `try` can throw.
- The subscription's `catch` is just as unreachable in the source, whose awaited timer never rejects.
  `paymentFails` stands for a payment call that the simulation does not have, so the failure path is modelled for when one throws.
- The dialogs' props `selectedPlan` and `repositoryName` are `const` fields. In the source the plan dialog stays mounted while the page
  changes `selectedPlan`, so the billing cycle carries over to the next plan. In the model a new plan needs a new dialog, which starts monthly.
- Scan results are revealed only in the order of the findings list. The auto-start guard's `useEffect` dependency list is not modelled.
- The `useAuth` error outside a provider, the severity colour and icon switches, and the authentication gating in the page components.
- The static pages and sections (dashboard, landing page, pricing page apart from its custom plan, features, header, hero, alerts, stats).
  They only render mock tables.
