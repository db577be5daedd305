# Verified models of kates

Dafny models of the parts of kates where one mistake is expensive: the run
analyst, the two schema checkers, `kates clean`, the HTTP client, the label
selector check, `kates test apply`, the dashboard scripts, the book's palette
check and `kates ctx import`. Each model does what the code does, branch by
branch; what the code is for is then proved of the model, over every input,
every run or every cluster. `dafny verify dfyconfig.toml` checks everything.

| files | part of kates |
|---|---|
| CrdWalk, CrdCheck | `scripts/check-strimzi-crs.py` |
| AnswerShape, Verdict, AnswerChecks | `agents/run-analyst/verdict.py`, `analyst.py` |
| RunStore, RunAnalyst, RunSafety, RunJobs, RunTheorems, RunGate, RunWorker | `agents/run-analyst/receiver.py`, `poll.py` |
| Components, CleanPlan, CleanSafety | `cli/pkg/components`, `cli/cmd/clean.go`, `clean_shared.go` |
| PathSegments, ClientPath, ClientRetry | `cli/client/client.go` |
| SelectorClauses, LabelSelector, LabelRoundTrip, LabelForms | `cli/cmd/chaos_lint.go` |
| ApplySla, SlaScopes, Apply | `cli/cmd/apply.go`, `apply_sla.go`, `apply_junit.go` |
| DashboardLayout, Generate | `scripts/check-dashboards.py`, `scripts/gen-dashboards.py` |
| Palette, PaletteForms, Contrast | `scripts/check-book-contrast.py` |
| Contexts | `cli/cmd/config.go` |
| Values, Lists | values as Python and JSON have them; filtering a list |

Code that changes state is a class or a method with loops, proved against a
function of its input; the lemmas are about those functions, and say in terms of
their own what each test, table and constant admits. The run analyst is
also a step system: `RunAnalyst` has one step for each thing that can happen
(a webhook event, a polled run, each step of the worker, a restart) at a clock
that does not run back, `RunSafety` and `RunJobs` hold what every step keeps,
and `RunTheorems` and `RunGate` what that means for whole runs. `RunWorker.ProcessIsARun` and
`RunWorker.PollsAreARun` tie the worker's and the poll loop's code to those
steps.

Where the code and what is said of it part, the model follows the code:

- The run analyst posts an error notice before it records it, so a restart
  between the two lets the next one follow at once. Every other notice is the
  last for an hour, whatever restarts there are
  (`RunTheorems.ErrorNoticesAreSpaced`, `RunTheorems.RestartRepeatsANotice`).
- It records a verdict before it delivers the answer, so a restart between the
  two loses the delivery for good; exactly the restarts that fall there do
  (`RunTheorems.DeliveriesAreGood`, `RunTheorems.RestartLosesADelivery`).
- Checking an answer can raise: `float` refuses an integer from 2^1024 - 2^970
  on, which the answer's schema allows. The analysis then ends without an answer
  and without a retry (`AnswerChecks.ProblemsRaiseOnOverflow`).
- An event starts one analysis when its run was created no later than five days
  after the event's first claim (seven days of memory less 48 hours of age);
  with any later creation time it can start two
  (`RunTheorems.LateCreationStartsTwice`).
- `^[0-9a-f]{8}$` also matches eight hex digits and a newline in Python; the
  model's run ids do too.
- The CRD walk agrees with the API server's pruning exactly when pruning takes
  no required key the value has; a required key that the schema does not
  declare, or an enum that lists a mapping, breaks the agreement
  (`CrdWalk.UndeclaredRequiredKey`, `CrdWalk.MappingInEnum`).
- The report scope adds out-of-order and CRC counts up in an int64. Past its
  end the total wraps, and a gate that every row breaks is not broken
  (`SlaScopes.TotalWraps`).
- The layout gate reads neither the sign of a position nor that of a size
  (`DashboardLayout.LeftOfTheBoard`, `DashboardLayout.EmptyPanelsOverlap`).
- An id that `pathf` refuses is not an HTTP error, so waiting for a disruption
  counts it as a transient failure and polls five times
  (`ClientRetry.RefusedIdFailsFiveTimes`).
- A run created with an empty id is a submit error in the JUnit report, although
  the command succeeds; only then do the two disagree (`Apply.TestApply`).

## Model

| member | source | states |
|---|---|---|
| CrdWalk.Walk | scripts/check-strimzi-crs.py:135-171 | the recursive walk appends to the shared list exactly the findings of value and schema, in order |
| CrdWalk.WalkOfPruned | scripts/check-strimzi-crs.py:135-171 | with scalar enums, walking the pruned value gives the findings less the unknown fields, in order, exactly when pruning takes no required key |
| CrdWalk.WalkAgreesWithPruning | scripts/check-strimzi-crs.py:150-168 | and so for every value when the schema declares its required keys |
| CrdWalk.PruneCount | scripts/check-strimzi-crs.py:159-168 | in general the pruned walk finds as many as the known findings plus one missing key for each required key pruned |
| CrdWalk.PrunedHasNoUnknown | scripts/check-strimzi-crs.py:162-168 | nothing of a pruned value is called unknown |
| CrdWalk.PruneIsIdentity | scripts/check-strimzi-crs.py:162-168 | pruning changes nothing exactly when the walk reports no unknown field |
| CrdWalk.PruneIsIdempotent | scripts/check-strimzi-crs.py:162-168 | pruning twice is pruning once |
| CrdWalk.CleanWalk | scripts/check-strimzi-crs.py:135-171 | the walk is silent exactly when the value fits the schema, read without a walk and with each type name's values written out |
| CrdWalk.FindingsAreFaults | scripts/check-strimzi-crs.py:124-171 | a finding is reported exactly when the fault it names is there, at the path it names: null, type, enum, pattern, required key, unknown field |
| CrdWalk.UndeclaredRequiredKey | scripts/check-strimzi-crs.py:159-168 | a value and a schema with an undeclared required key on which walk and pruning disagree |
| CrdWalk.MappingInEnum | scripts/check-strimzi-crs.py:150-151 | a value and a schema with a mapping in an enum on which they disagree |
| CrdCheck.Check | scripts/check-strimzi-crs.py:174-192 | the findings of a stream of documents, in order, and how many had a schema |
| CrdCheck.CheckDocument | scripts/check-strimzi-crs.py:177-191 | one document: its duplicate keys, then the findings of its spec or that it has none |
| CrdCheck.ServedIs | scripts/check-strimzi-crs.py:181-183 | a document is checked by the schema of its own version and kind |
| CrdCheck.ServedAreCounted | scripts/check-strimzi-crs.py:175-184 | counted are exactly the documents with one |
| CrdCheck.StoredStreamCheck | scripts/check-strimzi-crs.py:174-192 | checking what the API server stores reports what checking the stream did, less the unknown fields, line for line |
| CrdCheck.SilentCheck | scripts/check-strimzi-crs.py:174-192 | the check is silent exactly when no document writes a key twice and every one with a schema fits it |
| AnswerShape.CheckShape | agents/run-analyst/verdict.py:150-182 | the recursive shape check returns exactly the problems of answer and schema, in order |
| AnswerShape.SilentIffConforms | agents/run-analyst/verdict.py:150-182 | for every schema of the subset there is no problem exactly when the answer conforms: type, enum, pattern, required, closed objects, items |
| AnswerShape.ProblemsAreFaults | agents/run-analyst/verdict.py:150-182 | a problem is named exactly when the answer has it at that place |
| Verdict.OneVerdict | agents/run-analyst/verdict.py:98-117 | from any evidence exactly one verdict follows by the rule table |
| Verdict.EvidenceIsRead | agents/run-analyst/verdict.py:98-117 | on an answer of the right shape each part of the evidence is the field of its own path, key by key |
| Verdict.DeriveIsTotal | agents/run-analyst/verdict.py:98-117 | on such an answer derive raises nothing and gives the verdict the rule table gives for those fields |
| Verdict.AnswerKeys | agents/run-analyst/verdict.py:27-31 | an answer of the right shape has the fourteen keys and no other |
| Verdict.CaveatsField | agents/run-analyst/verdict.py:83 | its caveats are ids of the caveat pattern |
| Verdict.MetricEntry | agents/run-analyst/verdict.py:56-69 | each metric of its band has a name, one of three kinds and one of three positions |
| AnswerChecks.CollectFigures | agents/run-analyst/verdict.py:128-140 | appends the figures of a value, at any depth, in order, up to the first integer too big for a float; raises exactly when there is one |
| AnswerChecks.FiguresAreHeld | agents/run-analyst/verdict.py:128-140 | without such an integer a figure is collected exactly when the value holds it somewhere |
| AnswerChecks.GroundingIsNearest | agents/run-analyst/verdict.py:143-147 | a figure grounds a number only within half a unit of its last place or a billionth, and every closer figure does |
| AnswerChecks.RoundsToNearest | agents/run-analyst/verdict.py:147 | rounding goes to the nearest whole number, and halfway to the even one |
| AnswerChecks.ProblemsRaiseOnOverflow | agents/run-analyst/verdict.py:185-206 | checking any answer raises exactly when it has the right shape and a structured field holds an integer too big for a float; it finds nothing exactly when the answer may be posted: right shape, no such integer, derived verdict, grounded headline and next, no mutating word |
| AnswerChecks.ProblemsAreSo | agents/run-analyst/verdict.py:185-206 | past the shape, a problem is named exactly when it is so: another verdict, a number in headline or next that no structured figure grounds, a mutating word |
| AnswerChecks.AnalysisAccepts | agents/run-analyst/analyst.py:87-109 | one analysis asks at most twice, again exactly after an answer sent back, not one whose check raises, and accepts exactly a good answer about the run |
| RunStore.Store.Claim | agents/run-analyst/receiver.py:121-126 | expires old rows, then inserts the key if it is not there; true exactly when it was inserted |
| RunStore.Store.Record | agents/run-analyst/receiver.py:132-135 | appends one outcome |
| RunStore.Store.Count | agents/run-analyst/receiver.py:137-141 | counts the outcomes of one label since a time, the time included |
| RunStore.CountIs | agents/run-analyst/receiver.py:137-141 | that count is the number of rows of the label at or after the time |
| RunStore.ClaimAnswersForTheLog | agents/run-analyst/receiver.py:121-126 | a claim fails exactly when some successful claim of that key is at most seven days old |
| RunStore.ClaimKeepsTheLog | agents/run-analyst/receiver.py:121-126 | every claim leaves the pruned table standing for the full log, whatever other keys it deleted |
| RunSafety.StepKeepsBudget | agents/run-analyst/receiver.py:194-200 | no step takes a closed hour past the budget, although count and record read the clock apart |
| RunSafety.StepKeepsSpacing | agents/run-analyst/receiver.py:182-188 | no step, a restart included, brings an error notice within an hour of an earlier one, but for a notice whose own record a restart took |
| RunSafety.StepKeepsFairness | agents/run-analyst/receiver.py:201-211 | after every step the verdicts recorded are those delivered, those whose delivery a restart took, each in order, and the one about to be delivered; and their answers are good |
| RunJobs.StepConserves | agents/run-analyst/receiver.py:179-215 | no step loses or doubles a job: claims handed over are those closed, in hand, queued or lost in a restart; starts likewise |
| RunJobs.StepKeepsPairs | agents/run-analyst/receiver.py:200-211 | each analysis closes right after its own start |
| RunJobs.AtMostOneStart | agents/run-analyst/receiver.py:166-177 | by the second claim of a key the run is too old for the gate |
| RunTheorems.HourlyBudgetHolds | agents/run-analyst/receiver.py:194-200 | over every run, restarts included, no closed window of 3600 seconds holds more than max_per_hour starts |
| RunTheorems.ErrorNoticesAreSpaced | agents/run-analyst/receiver.py:182-188 | over every run an error notice is followed by the next only more than an hour later, but for one whose record a restart took; there is none of those exactly when no restart found a notice awaiting its record |
| RunTheorems.RestartRepeatsANotice | agents/run-analyst/receiver.py:185-187 | from every reachable state with a notice awaiting its record, a restart at any time and any claimable event lead to the next notice at that time |
| RunTheorems.RestartMayRepeatANotice | agents/run-analyst/receiver.py:185-187 | so a run with one restart has two error notices at one moment |
| RunTheorems.ClaimsAreRemembered | agents/run-analyst/receiver.py:121-126 | in every reachable state the table answers for the whole history of claims |
| RunTheorems.OneStartPerEvent | agents/run-analyst/receiver.py:34-37 | over every run a key leads to at most one start when its run was created no later than five days after its first claim |
| RunTheorems.TwoStartsPerRun | agents/run-analyst/receiver.py:166-177 | and a run id to at most two |
| RunTheorems.LateCreationStartsTwice | agents/run-analyst/receiver.py:121-126 | five days is exact: with any later creation time some run starts the event twice |
| RunTheorems.DeliveriesAreGood | agents/run-analyst/receiver.py:201-211 | over every run only good answers about their own run go out, with the derived verdict; delivered, lost in a restart and pending together are the verdicts recorded, in order and as multisets; all are delivered exactly when none is pending and no restart found a verdict awaiting its delivery |
| RunTheorems.RestartLosesADelivery | agents/run-analyst/receiver.py:209-210 | for any good answer a run with its verdict on record, nothing delivered and nothing left to do |
| RunTheorems.EveryJobIsAccountedFor | agents/run-analyst/receiver.py:179-215 | over every run each job handed over is closed, in hand, queued or lost in a restart, and closes at most once |
| RunGate.RecordsAnswerReads | agents/run-analyst/receiver.py:166-215 | over every run each record answers an earlier read of its own job: a start, a skip or a close one that was finished, dated and at most 48 hours old, a drop one that was missing, unfinished, undated or older, a gate error one that failed |
| RunWorker.Process | agents/run-analyst/receiver.py:179-211 | one pass of the worker leaves exactly the records, notices and deliveries of the pass |
| RunWorker.PassLeaves | agents/run-analyst/receiver.py:166-211 | what one pass adds, by what its reads gave: a drop adds its row and nothing else, an admitted run is skipped with a notice when the hour's budget is spent and else started and closed by a good answer's verdict with its delivery, or by an error with its notice |
| RunWorker.ProcessIsARun | agents/run-analyst/receiver.py:179-211 | one pass is a legal run of the worker's steps with the same end, so claims about runs hold of it |
| RunWorker.Post | agents/run-analyst/receiver.py:234-251 | a request claims and queues exactly the event it names, as one step does; any other leaves store and queue alone |
| RunWorker.NamedExactly | agents/run-analyst/receiver.py:234-249 | a request names an event exactly when it is a completed test of 1 to 4096 bytes with eight hex digits for an id and a final status |
| RunWorker.PollOnce | agents/run-analyst/poll.py:19-30 | claims the listed runs oldest first, DONE before FAILED, and processes exactly the new ones, or none when seeding; cut short where a list cannot be read |
| RunWorker.VisitsAre | agents/run-analyst/poll.py:22-26 | a poll visits exactly the listed runs with a valid id, DONE before FAILED |
| RunWorker.VisitedInTurn | agents/run-analyst/poll.py:23 | the last listed run is visited first |
| RunWorker.PollMode | agents/run-analyst/poll.py:36-45 | seeds on an empty store until a poll gets through, and leaves the table and the book of all the visits |
| RunWorker.PollsAreARun | agents/run-analyst/poll.py:19-45 | the visits of poll mode are a legal run of claims and worker's steps with the same end, so claims about runs hold of it |
| RunWorker.PollModeKeepsBudget | agents/run-analyst/poll.py:36-45 | what poll mode writes from an empty store keeps the hourly budget |
| RunWorker.SeedingHoldsForAWeek | agents/run-analyst/poll.py:37-45 | on an empty store, what the polls up to the first complete one list is handed over by no poll of that week |
| Components.TableIsConsistent | cli/pkg/components/components.go:157-338 | each group watches its own CRDs only, and each owner is an operator of the table |
| Components.GroupsAre | cli/pkg/components/components.go:296-338 | one object is kates' own without Helm, and only cert-manager's and Kyverno's groups watch fewer kinds than they have |
| Components.ReleasesAre | cli/pkg/components/components.go:212-222 | the releases under a placement are those of the rows that have one, each named and placed as its row says |
| Components.NamespacesAre | cli/pkg/components/components.go:229-249 | the namespaces are those the rows go to, each once, those of operators alone last |
| Components.ByReleaseIsFirst | cli/pkg/components/components.go:202-210 | a release name stands for the first row that has it |
| CleanPlan.CleanTargets | cli/cmd/clean.go:87-114 | every release and namespace of every placement, each once, operators last |
| CleanPlan.OperatorUnderIs | cli/cmd/clean.go:107-114 | a release counts as an operator's by the first row with its name, and as Kafka's when it has the placement's Kafka name |
| CleanPlan.CleanPresent | cli/cmd/clean.go:323-344 | what the list names or, when the list fails, what is found one by one, in order |
| CleanPlan.Discover | cli/cmd/clean.go:291-318 | the plan after discovery, field by field |
| CleanPlan.ForeignReleases | cli/cmd/clean_shared.go:155-168 | the names of the releases in a namespace that are not the stack's |
| CleanPlan.GroupInUse | cli/cmd/clean_shared.go:62-106 | true exactly when the objects cannot be listed or one of a watched kind is not the stack's |
| CleanSafety.InUseByOthers | cli/cmd/clean_shared.go:62-106 | a group is in use exactly when a watched kind is there and they cannot be listed or one has an object that is in no namespace that goes nor the operator's, and, cluster-scoped, was not installed from one nor is listed as the group's |
| CleanPlan.KeepForOthers | cli/cmd/clean.go:348-424 | the whole narrowed plan, and what is noted as kept, as a function of the plan found and the cluster |
| CleanSafety.NarrowedPlanIsSafe | cli/cmd/clean.go:348-424 | on every cluster the narrowed plan is safe: each object lost with a CRD is in a namespace that goes or its operator's, or was installed from one, or is the group's own; no foreign release is lost with a namespace; kept groups stay whole; cluster objects are the stack's |
| CleanSafety.NotesTellAll | cli/cmd/clean.go:348-424 | on every cluster each note is true, foreign releases and reasons included, and what was found and does not go is noted, is of a noted group's operator, or is not there |
| CleanSafety.GoingCRDsAreUnused | cli/cmd/clean.go:373-402 | when the plan is final, every object of a watched kind whose CRD goes is in a namespace that goes, or its operator's, or its group's own |
| CleanSafety.AloneHoldsNoForeign | cli/cmd/clean.go:356-371 | no namespace that goes holds a release that is not the stack's |
| CleanSafety.GroupsStayWhole | cli/cmd/clean.go:385-402 | a kept group keeps its operator, the operator's namespace and every CRD, and no CRD stays otherwise |
| CleanSafety.TargetsSetOwnersApart | cli/cmd/clean.go:349-354 | for a consistent table and any placements each owner's namespace is an operator namespace or not in the plan |
| CleanSafety.PlanClean | cli/cmd/clean.go:205-226 | targets, discovery and narrowing in turn end, over every cluster and whichever calls fail, in a safe plan of things that exist, with notes that tell all the rest |
| CleanSafety.NothingKept | cli/cmd/clean_shared.go:24-29 | nothing is noted as kept exactly where nothing but the stack is there, and then the plan loses only objects that are not there |
| CleanSafety.SharedHomeLosesAnObject | cli/cmd/clean.go:373-402 | with an owner's namespace judged like any other, a CRD would go that an object left behind needs |
| PathSegments.DecodeEscaped | cli/client/client.go:172 | percent-decoding an escaped value gives the value back |
| PathSegments.UnreservedIs | cli/client/client.go:172 | the characters RFC 3986 calls unreserved, and the six more that escaping leaves |
| PathSegments.HexIs | cli/client/client.go:172 | a hex digit's value in either case, written upper-case |
| PathSegments.NormalizeEscaped | cli/client/client.go:172 | escaping encodes no unreserved character, so RFC 3986 section 6.2.2.2 changes nothing |
| PathSegments.SprintfFills | cli/client/client.go:174 | formatting fills the template's holes in order, one segment each |
| ClientPath.PathF | cli/client/client.go:163-175 | refuses exactly when some value is empty or a dot segment, and otherwise returns the template with each value escaped |
| ClientPath.SegmentsDecode | cli/client/client.go:151-175 | an accepted path has the template's segments and no others, and decoding them gives the caller's values |
| ClientPath.PathsDiffer | cli/client/client.go:151-175 | different values give different paths |
| ClientPath.DotsRemoved | cli/client/client.go:156-162 | RFC 3986 section 5.2.4 leaves an absolute path alone exactly when no segment is a dot segment |
| ClientPath.RemovalIsAStack | cli/client/client.go:156-162 | on an absolute path that algorithm works on the segments as on a stack |
| ClientPath.PathIsNormal | cli/client/client.go:156-162 | neither decoding unreserved characters nor removing dot segments changes an accepted path |
| ClientPath.NoEncodingHelps | cli/client/client.go:160-162 | however a refused value is percent-encoded, normalisation resolves it away or its segment is empty |
| ClientRetry.DoRequestWith | cli/client/client.go:193-239 | which attempt ends a request and with what; no error only below 400, every error the last attempt's, at most MaxRetries sent, backoff doubling |
| ClientRetry.RequestTells | cli/client/client.go:193-239 | that promise attempt by attempt: what earlier attempts met, and what the last one gives for each status |
| ClientRetry.OneReply | cli/client/client.go:203-238 | that promise leaves one reply, the one attempt by attempt |
| ClientRetry.PollTells | cli/client/client.go:836-842 | a report is a body read as one, none a body of null, and an HTTP error keeps its status |
| ClientRetry.PollIsItsReply | cli/client/client.go:836-842 | a poll is read off the reply its request promises |
| ClientRetry.PollUntilFinal | cli/client/client.go:792-825 | the poll loop ends with the first poll that is a reason to, after at most 242 polls, each of at most MaxRetries requests |
| ClientRetry.AwaitDisruptionFrom | cli/client/client.go:781-826 | the same with the poll before the loop when the accept status is terminal |
| ClientRetry.TimeIsBounded | cli/client/client.go:792-824 | a loop that goes on has made at most budget/interval + 1 polls |
| ClientRetry.HowWaitsEnd | cli/client/client.go:781-826 | on exactly the fifth failure in a row that is no status, 5xx, 408 or 429, at once on any other status, with a report only of one of the five final statuses or after an accept with one |
| ClientRetry.NoEarlierEnd | cli/client/client.go:795-823 | no earlier poll was permanent, terminal, a fifth failure, late or cancelled |
| ClientRetry.RefusedIdFailsFiveTimes | cli/client/client.go:781-836 | an id that pathf refuses is polled up to five times |
| SelectorClauses.SplitSelectorClauses | cli/cmd/chaos_lint.go:639-664 | fails exactly on unbalanced text, with the first error met; otherwise the clauses |
| SelectorClauses.SplitsExactly | cli/cmd/chaos_lint.go:639-664 | the clauses are the one list of balanced texts without a top-level comma that joins back to the input, and there is one only when it is balanced |
| SelectorClauses.SplitIsUnique | cli/cmd/chaos_lint.go:639-664 | no two such lists join to the same text |
| LabelSelector.ValidateLabelSelector | cli/cmd/chaos_lint.go:576-637 | refuses exactly where reading the selector fails, with the same error |
| LabelRoundTrip.PrintedIsReadBack | cli/cmd/chaos_lint.go:569-637 | every list of valid requirements, printed, is accepted and read back as the same list |
| LabelRoundTrip.AcceptedIsValid | cli/cmd/chaos_lint.go:576-637 | whatever is accepted was read as valid requirements, and printing them gives a selector with the same meaning |
| LabelRoundTrip.ReadsDoubleEquals | cli/cmd/chaos_lint.go:620-621 | a doubled equal sign reads like a single one |
| LabelForms.ValidIs | cli/cmd/chaos_lint.go:569-572 | valid keys and values written out: length, first, last and inner characters, prefix and slash |
| LabelForms.TrimIs | cli/cmd/chaos_lint.go:577 | trimming takes Unicode's 25 white-space characters off both ends and nothing else |
| LabelForms.SetExprIs | cli/cmd/chaos_lint.go:572 | a clause is read as a set expression exactly when it is key, space, in or notin, perhaps space, and values in parentheses |
| LabelForms.SelectorErrors | cli/cmd/chaos_lint.go:576-637 | each error says what is wrong with the selector or with a clause of its split |
| ApplySla.ValidateSLAs | cli/cmd/apply.go:632-687 | the violations of the task scope, row by row in order |
| ApplySla.AggregateRun | cli/cmd/apply_sla.go:92-114 | the run's throughput and integrity figures |
| ApplySla.ValidateSLAsAggregate | cli/cmd/apply_sla.go:120-163 | the violations of the report scope, in order |
| ApplySla.UnevaluableSLAs | cli/cmd/apply.go:707-729 | exactly the declared RTO and RPO gates that no row measured |
| SlaScopes.GradeIsClean | cli/cmd/apply_sla.go:39-52 | a grade at either scope holds no violation exactly when the run did not fail, measured the latency it is judged by, and every figure, of each row or over the rows, is within its gate |
| SlaScopes.TaskBreaks | cli/cmd/apply.go:652-685 | the task scope breaks a gate exactly when some row does |
| SlaScopes.WorstGatesAgree | cli/cmd/apply_sla.go:98-112 | a loss, RTO or RPO gate breaks at the report scope exactly when it breaks on some row |
| SlaScopes.CountGatesAgree | cli/cmd/apply_sla.go:104-105 | an out-of-order or CRC gate breaks at the task scope exactly on a row's count and at the report scope exactly on the total as int64 has it; so the report breaks where a row does, while int64 holds the total |
| SlaScopes.TotalWraps | cli/cmd/apply_sla.go:104-105 | two rows past int64 that both break the gate the report does not |
| SlaScopes.ThroughputGateAgrees | cli/cmd/apply_sla.go:58-69 | a throughput gate every row of a non-empty run meets is met by the run |
| SlaScopes.OrderDoesNotMatter | cli/cmd/apply_sla.go:92-114 | throughput and integrity figures do not depend on the order of the rows |
| SlaScopes.ThroughputIs | cli/cmd/apply_sla.go:54-96 | a run's throughput is the sum over its producers' rows, or over all rows without any |
| SlaScopes.EachGateIsOneOf | cli/cmd/apply.go:707-729 | each declared RTO or RPO gate is broken at both scopes, or not evaluable, or measured and met by every row, and only one of these |
| SlaScopes.NotEvaluableAre | cli/cmd/apply.go:707-729 | not evaluable are exactly the declared RTO and RPO gates without a figure of zero or more in any row |
| SlaScopes.FailedRunIsViolated | cli/cmd/apply_sla.go:121-124 | a failed run has a violation at both scopes |
| Apply.SuccessIsInTheTrace | cli/cmd/apply.go:232-311 | all results pass uninterrupted exactly when every scenario had its turn before any cancellation, had its run created and, under --wait, finished without failing and within its gates where they are checked |
| Apply.RowIs | cli/cmd/apply.go:255-311 | the row of a scenario field by field: name or number, run id, status, fault and grade for each thing it can meet |
| Apply.CaseTells | cli/cmd/apply_junit.go:27-102 | its JUnit case: skipped, submit error, wait error, run failure, violation or passed, by what it met |
| Apply.ApplyAll | cli/cmd/apply.go:232-251 | rows of the scenarios reached, in order, and interrupted exactly when Ctrl-C came before or during one |
| Apply.WriteApplyJUnit | cli/cmd/apply_junit.go:27-57 | a case for each row and each scenario not started, and counters that count them |
| Apply.FinishApply | cli/cmd/apply.go:315-368 | the exit for every combination of flags, rows and a failed report write |
| Apply.ReportIsRight | cli/cmd/apply_junit.go:27-102 | one case per scenario in file order, counts that add up to Tests, Skipped positive exactly when interrupted |
| Apply.TestApply | cli/cmd/apply.go:232-368 | a whole apply: each exit as a fact about what the scenarios met, and a report that is clean exactly when the command succeeds and every run it created has an id |
| DashboardLayout.CheckContainer | scripts/check-dashboards.py:63-80 | the layout findings of a container, in order |
| DashboardLayout.ProblemsAreSo | scripts/check-dashboards.py:63-80 | a problem is named exactly when the panel at that place has no complete place, ends past column 24, or overlaps the other one named |
| DashboardLayout.OverlapIsASharedCell | scripts/check-dashboards.py:57-60 | two rectangles share a cell exactly when they overlap and neither is empty |
| DashboardLayout.SilentIffFits | scripts/check-dashboards.py:63-80 | what the gate passes covers no cell twice and stays in 24 columns, and of panels with a size it passes all that do |
| DashboardLayout.AreaFits | scripts/check-dashboards.py:57-80 | the areas of what it passes add up to at most 24 times the lowest bottom edge |
| DashboardLayout.LeftOfTheBoard | scripts/check-dashboards.py:71-73 | a panel left of column 0 that passes with more area than that |
| DashboardLayout.EmptyPanelsOverlap | scripts/check-dashboards.py:57-60 | empty panels that are said to overlap and share no cell |
| Generate.Disk.Sync | scripts/gen-dashboards.py:55-66 | writes a file that differs, or in a check records it |
| Generate.Disk.Prune | scripts/gen-dashboards.py:69-88 | removes exactly the bundle files not kept, or in a check records them |
| Generate.Disk.Run | scripts/gen-dashboards.py:128-178 | the files, counts and findings of a run in either mode; a check run changes no file |
| Generate.TargetsWritten | scripts/gen-dashboards.py:141-147 | a board writes its targets in order, each with its variant's text, up to the first variant it does not build |
| Generate.BoardsWritten | scripts/gen-dashboards.py:137-147 | the boards come through exactly when each builds all its targets' variants, and then write just those |
| Generate.BundleIsExact | scripts/gen-dashboards.py:69-88 | a write run leaves the bundle directory holding exactly the bundle files |
| Generate.SettledIff | scripts/gen-dashboards.py:143-159 | after a write run every output holds exactly when outputs sharing a path agree and boards write only bundle files into the bundle |
| Generate.SecondRun | scripts/gen-dashboards.py:128-178 | exactly then a second write run writes and removes nothing and a check finds nothing stale or left over |
| Generate.CheckForetells | scripts/gen-dashboards.py:128-178 | a check is silent, marks apart, exactly on files of which a write run would write and remove nothing |
| Generate.GenerateTwice | scripts/gen-dashboards.py:128-178 | write, write, check from any file system |
| Palette.LoopExactly | scripts/check-book-contrast.py:60-88 | on every palette, cyclic ones included, resolving ends, and reports a loop exactly when the chain of references comes back to a name |
| Palette.LoopReturns | scripts/check-book-contrast.py:65-67 | and the name it reports is the one come back to |
| Palette.SeenOnlyStops | scripts/check-book-contrast.py:60-88 | names seen before that the value does not lead to make no difference |
| Palette.ResolvesAlike | scripts/check-book-contrast.py:60-88 | on an acyclic palette a value resolves alike after any names that led to it, and without a loop |
| PaletteForms.FormIs | scripts/check-book-contrast.py:60-88 | the five forms of a value by its stripped text: reference, hex, colour with an alpha, channels, plain |
| PaletteForms.StripIs | scripts/check-book-contrast.py:62 | stripping takes white space and separators off both ends and nothing else |
| PaletteForms.SplitIs | scripts/check-book-contrast.py:79 | the arguments are the comma-free texts that join to what is in the parentheses |
| PaletteForms.HexIs | scripts/check-book-contrast.py:51-57 | a hex colour is three doubled or six digits after its hashes, two a channel, and opaque |
| PaletteForms.ChannelsAre | scripts/check-book-contrast.py:83-84 | channels are three numbers and perhaps a fourth for the alpha |
| PaletteForms.FadingIs | scripts/check-book-contrast.py:80-82 | an alpha scales the inner colour's own; any other reading of the inner value stays |
| PaletteForms.ReferenceIs | scripts/check-book-contrast.py:63-74 | a reference is its name's value, and a value error names the token nearest to it |
| Contrast.CompositeIsBetween | scripts/check-book-contrast.py:93-96 | each channel of a composite lies between the two colours' |
| Contrast.LayerColourIs | scripts/check-book-contrast.py:226-236 | a plain layer has its reference's colour, a tinted one that colour with its alpha times the tint; otherwise why there is none |
| Contrast.SurfaceOf | scripts/check-book-contrast.py:226-241 | the surface of a stack of layers, or the first thing that stops it |
| Contrast.SurfaceIsOpaque | scripts/check-book-contrast.py:226-241 | layers with channels in 0..255 and alphas in 0..1 stack into an opaque surface in range; only a translucent bottom stops them |
| Contrast.RatioBounds | scripts/check-book-contrast.py:99-109 | contrast is symmetric and within 1..21 |
| Contrast.RatioIs | scripts/check-book-contrast.py:107-109 | the ratio is of the lighter to the darker, each raised by 0.05 |
| Contrast.ChannelCurve | scripts/check-book-contrast.py:100-102 | a channel is linear up to 10.31475 of 255 and a power beyond |
| Contrast.Weights | scripts/check-book-contrast.py:99-109 | red, green and blue weigh 0.2126, 0.7152 and 0.0722, so white on black is 21 |
| Contexts.Store.ImportFile | cli/cmd/config.go:481-488 | the import loop, in any order of names, stores for each what importContext returns and keeps the other contexts |
| Contexts.FileIsStored | cli/cmd/config.go:481-560 | what an import stores and says, field by field: URL, output, insecure and a clear key are the file's, profiles the file's or else the old ones, a masked proxy or key the old one where it is known by its mask |
| Contexts.ExportHidesSecrets | cli/cmd/config.go:425-441 | contexts that differ only in a proxy password or in a key past its first four characters are exported alike |
| Contexts.NoMaskedKeyIsStored | cli/cmd/config.go:535-560 | after any sequence of imports into any config, a mask-shaped key is one its context had before |
| Contexts.NoMaskedProxyIsStored | cli/cmd/config.go:525-533 | and so is a proxy with a mask-shaped password, where net/url reads back the user it writes |
| Contexts.NoMaskIsEverStored | cli/cmd/config.go:519-559 | so from a config without masks no sequence of imports stores one |
| Contexts.MaskedEntryKeepsKey | cli/cmd/config.go:537-558 | a masked entry leaves a key exactly when there was one, the mask is its, and URL, proxy and insecure stay; it is then the old key with its source |
| Contexts.NoImportMovesAKey | cli/cmd/config.go:513-518 | whatever sequence of files is imported, a key none of them gives in clear stays in its context, going where that one went |
| Contexts.ExportImport | cli/cmd/config.go:426-438 | importing the masked export of a context over itself changes nothing exactly when its proxy parses and it has no key-source without a key |
| Contexts.ConfigRoundTrip | cli/cmd/config.go:425-441 | and so for a whole config |

## Left out

- Real I/O: SQLite, HTTP, kubectl, helm, files and the model session are answers or traces of answers; goroutines and threads are interleaved steps.
- YAML, JSON, XML and URL parsing, the CRD and caveat patterns and the number regex: values arrive parsed, and patterns and numbers are parameters.
- Message texts: findings, problems and violations are datatypes with the path, the rule and the figure; how a figure is formatted, and a value quoted in a message, is not modelled.
- Floating point: figures are reals, so nothing is said of rounding in sums; `round` to a number of decimals is half-even on reals.
- Mapping keys that are not strings, which YAML allows; JSON's NaN and infinities, and numerals too long for a float, which Python reads as infinite.
- RunAnalyst: a post is one step to all sinks together, whose failures the code swallows; an exception of the store, or of reading an id, is not modelled.
- RunWorker: the endless loops are modelled over any number of rounds; each listed run comes with when it is claimed and what its pass meets.
- RunAnalyst: Kates reports one creation time for a run whenever it is read.
- CleanPlan.ForeignReleases: does not model the sorting of the names, which only the note to the user shows; `describeCounts` is text as well.
- CleanPlan: the cluster answers alike throughout one plan; the deletion steps, port-forwards and confirmation after the plan are not modelled.
- PathSegments: which characters url.PathEscape escapes is stated from the Go standard library; formats are paths whose verbs are whole segments, as all formats in the client are.
- ClientRetry: TLS, redirects and headers; a wait that the context cuts short is an answer of the trace.
- LabelSelector: texts are characters, where Go scans bytes; the two agree since every character tested for is ASCII or a space.
- ApplySla: latencyOf and measuredLatency are parameters, and nothing is claimed about latency figures beyond the gates that read them.
- Apply: the terminal output, elapsed times, JUnit class names and system-out; the letter case of a scenario's type.
- DashboardLayout.CheckContainer: does not model the findings about descriptions and queries of the same function, which are one test per panel.
- Generate: a board's build and the reading of manifests; directories, and outputs that would overwrite the sources the next run reads.
- Palette: Python's recursion limit on very long chains of references.
- Contexts: saving the file, `ctx set`, `ctx use` and the printing of warnings.
- Terminal UI, completion, the remaining endpoint wrappers and the text scripts would add only easy members.
