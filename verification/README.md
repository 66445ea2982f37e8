# nsopy in Dafny

A model of the core of nsopy, a library of first-order methods for
non-smooth convex optimisation. Its intended use is maximising the dual
function of a Lagrangian relaxation. The user supplies:

- an *oracle*, which maps a multiplier vector `lambda` to an inner primal
  minimiser `x`, the dual value `d(lambda)` and a supergradient `g`;
- a *projection* onto the dual domain.

A method holds its iterate and counters. Each call to `dual_step` advances
it by one iteration and notifies the registered loggers.

The model covers these parts of nsopy:

- **Observers.** The observable/observer pattern (`ObserverPattern`).
- **Loggers.** The six method loggers and the base observer
  (`MethodLoggers`).
- **Template method.** The counting skeleton (`TemplateMethods`).
- **Subgradient method.** The projected subgradient method with its two
  step-size rules (`Subgradient`).
- **Quasi-monotone methods.** Double simple averaging (DSA), its entropy
  variant, and triple averaging (TA) in both variants (`QuasiMonotone`).
- **Legacy quasi-monotone methods.** The legacy classes under `methods/`,
  which notify after the update instead of before it
  (`LegacyQuasiMonotone`).
- **Universal gradient methods.** The primal, dual and fast universal
  gradient methods (UPGM, UDGM, UFGM). This includes:
  - the Bregman map;
  - the backtracking search on the Lipschitz estimate `L`;
  - the averaging of the "tilde" outputs;
  - the fast method's coefficient equation (`Universal`).
- **Cutting-plane and bundle methods.** The cutting-plane method and the
  proximal bundle method (`Bundle`). This includes the cuts, the
  dual-domain rows, the serious/null step rule and the stop rule. The LP/QP
  solve is an abstract solver.
- **Factories.** The current method factory and the legacy one
  (`MethodsFactory`).
- **Sense inversion.** `invert_oracle_sense` (`OracleUtils`).
- **Test problems.** The analytical test oracles used as fixtures
  (`AnalyticalOracles`).

The model represents the code as follows:

- **Numbers.** Real numbers replace floats. Vectors are `seq<real>`.
- **Square root.** The square root is a parameter `sqrt` constrained by
  `IsSqrt`.
- **Problems.** A problem is a record `Problem(oracle, project, dim)`.
  `Consistent` says that the oracle and the projection respect the
  dimension.
- **Steps.** Every `dual_step` is a pure function that returns a
  `Stepped(next, notices, raised)`:
  - `next` is the new public state;
  - `notices` are the views the loggers receive, in order;
  - `raised` is the exception that ends the step, if any.
- **Logger updates.** A logger's `update` returns `Result<Logger, Fault>`.
  An attribute the method lacks becomes a `MissingField` fault.
- **Clock.** Wall-clock readings are parameters.

## Model

| member | source | states |
|---|---|---|
| ObserverPattern.Register | nsopy/observer_pattern.py:6-7 | registering appends the observer at the end and keeps every earlier observer in place |
| ObserverPattern.NewObservable | nsopy/observer_pattern.py:3-4 | a new observable has no observers, so removing any observer from it raises ValueError |
| ObserverPattern.IndexOf | nsopy/observer_pattern.py:9-10 | `list.index`: finds the first entry with the identity, or reports that none has it |
| ObserverPattern.Remove | nsopy/observer_pattern.py:9-10 | `list.remove`: fails (ValueError) exactly when the observer is absent, else drops its first occurrence and nothing else |
| ObserverPattern.RegisterThenRemove | nsopy/observer_pattern.py:6-10 | removing a freshly registered observer restores the original list |
| ObserverPattern.RemoveKeepsOrder | nsopy/observer_pattern.py:9-10 | removal keeps the relative order of the observers that remain |
| ObserverPattern.Reached | nsopy/observer_pattern.py:12-14 | notification reaches exactly the observers before the first whose update raises |
| ObserverPattern.Notify | nsopy/method_loggers.py:17-19 | every observer before the first raising one is updated with the event, the rest are untouched, and the exception surfaces |
| MethodLoggers.Attach | nsopy/method_loggers.py:40 | a logger's constructor registers it with its method exactly once more and leaves the other registrations alone |
| MethodLoggers.NewLogger | nsopy/method_loggers.py:35-193 | each logger's constructor leaves a logger of its own class with nothing recorded |
| MethodLoggers.Update | nsopy/method_loggers.py:43-193 | a successful update keeps the logger's class and records exactly one more notification; each logger fails exactly when the method lacks a field it reads (the base observer always, the slim logger also on its `IndexError`) |
| MethodLoggers.Feed | nsopy/method_loggers.py:43-193 | a logger fed `n` notifications without a failure keeps its class and has recorded `n` more; the base observer fails on the first |
| MethodLoggers.NotifyLoggers | nsopy/method_loggers.py:17-19 | notifying keeps every registration in place, fails exactly when some logger's update fails, and otherwise leaves each logger as its own update made it |
| MethodLoggers.BaseObserverRaises | nsopy/method_loggers.py:22-28 | the base observer's update raises NotImplementedError on every notification |
| MethodLoggers.TemplateRecordsCounter | nsopy/method_loggers.py:35-45 | the template logger records the method's counter `x`, one entry per notification, in order |
| MethodLoggers.GenericRecordsEveryNotice | nsopy/method_loggers.py:48-66 | the generic logger records every notification's iterate, value and primal point, in order |
| MethodLoggers.EnhancedRecordsCallCounts | nsopy/method_loggers.py:69-103 | the enhanced logger records each notification's oracle-call count and iterate; its time, value and call lists stay the same length |
| MethodLoggers.DgmFgmNeedsLk | nsopy/method_loggers.py:106-134 | the DGM/FGM logger's update succeeds exactly when the method exposes `L_k`, and then it appends `L_k` and the call count |
| MethodLoggers.PgmVisNeedsTilde | nsopy/method_loggers.py:137-169 | the visualisation logger needs `L_k` and then the tilde pair, raises on the first one missing, and otherwise appends all three |
| MethodLoggers.SlimTimesLagByOne | nsopy/method_loggers.py:172-193 | the slim logger records one value per notification and one elapsed time fewer than values |
| MethodLoggers.Lambdas | nsopy/method_loggers.py:62-66 | the column of iterates a logger collects from a run's notifications |
| MethodLoggers.Values | nsopy/method_loggers.py:62-66 | the column of dual values collected from the notifications |
| MethodLoggers.Primals | nsopy/method_loggers.py:62-66 | the column of primal points collected from the notifications |
| MethodLoggers.CallCounts | nsopy/method_loggers.py:89-99 | the column of oracle-call counts collected from the notifications |
| TemplateMethods.Step | nsopy/template_methods.py:21-26 | a template step increments the counter, leaves the oracle-call count alone and notifies once with the new counter |
| TemplateMethods.NewTemplate | nsopy/template_methods.py:13-19 | the template method starts with counter 0 and no oracle calls |
| TemplateMethods.RunCountsSteps | nsopy/template_methods.py:13-26 | `n` steps advance the counter by `n` and notify with the counter values 1..n in order |
| TemplateMethods.ThreeStepsRecorded | nsopy/tests/test_subgradient_methods.py:12-20 | three steps from a new template method leave the template logger holding `[1, 2, 3]` |
| Subgradient.NewSG | nsopy/subgradient_methods.py:17-42 | the method starts at the projected origin with iteration 1, no oracle calls and no primal point, so its first iterate is feasible |
| Subgradient.Stepsize | nsopy/subgradient_methods.py:54-65 | the "1/k" rule makes the step `s_0/k`; every other rule makes it the constant `s_0` |
| Subgradient.StepsizeNeverGrows | nsopy/subgradient_methods.py:54-65 | step sizes never increase with `k`, stay in `[0, s_0]`, and strictly decrease under "1/k" |
| Subgradient.Renamed | nsopy/subgradient_methods.py:54-65 | the method's display name follows the rule it applied, and an unknown rule keeps the old name |
| Subgradient.Step | nsopy/subgradient_methods.py:45-73 | a step notifies with the current iterate and the oracle's answer there, then moves to the projected ascent point and counts one call |
| Subgradient.Run | nsopy/subgradient_methods.py:45-73 | `n` steps keep the state valid and the rule and `s_0`, and notify `n` times |
| Subgradient.RunCountsAndPairs | nsopy/subgradient_methods.py:45-73 | over `n` steps each notification carries the call count before its own call and the oracle's answer at its iterate, and consecutive iterates follow the ascent law |
| Subgradient.RunStaysFeasible | nsopy/subgradient_methods.py:70-71 | with an idempotent projection, every iterate shown and the final one lie in the dual domain |
| Subgradient.ConstantRuleMarches | nsopy/subgradient_methods.py:54-71 | on a constant-gradient line with the identity projection, the constant rule moves by `s_0 * g` at every step |
| Subgradient.MockRunIterates | nsopy/tests/test_subgradient_methods.py:38-71 | the mock problem with step 1.5 shows the iterates 0, 1.95, ..., 9.75 and ends with `x = 1.1`, `d = 1.2` |
| Subgradient.MockRunRecorded | nsopy/tests/test_subgradient_methods.py:38-71 | the generic logger on that run holds exactly the iterate, value and primal lists the test asserts |
| Subgradient.EnhancedSeesCountBeforeIncrement | nsopy/tests/test_subgradient_methods.py:96-113 | the enhanced logger's last recorded call count after `n` steps is `n - 1`, because notification precedes the increment |
| QuasiMonotone.NewDSA | nsopy/quasi_monotone_subgradient_methods.py:18-43 | DSA starts at the unprojected origin with zero accumulated subgradient and no calls |
| QuasiMonotone.NewEntropy | nsopy/quasi_monotone_subgradient_methods.py:66-93 | the entropy variant starts at the origin with `d = 0` and zero accumulated subgradient |
| QuasiMonotone.NewTA | nsopy/quasi_monotone_subgradient_methods.py:115-143 | TA starts at the projected origin and remembers it as `lambda_0` |
| QuasiMonotone.DSAWeights | nsopy/quasi_monotone_subgradient_methods.py:45-57 | DSA's two averaging weights are positive, sum to one and are `(t+1)/(t+2)` and `1/(t+2)` |
| QuasiMonotone.DSAStep | nsopy/quasi_monotone_subgradient_methods.py:45-57 | a DSA step notifies before updating, accumulates the subgradient, and raises ZeroDivisionError exactly when `gamma = 0` |
| QuasiMonotone.Queried | nsopy/quasi_monotone_subgradient_methods.py:45-47 | the oracle call stores `d_k` and `x_k` and counts the call, nothing else changes, and the notification shows exactly these fields |
| QuasiMonotone.DSAProjected | nsopy/quasi_monotone_subgradient_methods.py:49-51 | the point DSA averages in has the problem's dimension and, with an idempotent projection, lies in the dual domain |
| QuasiMonotone.DSAIsRunningAverage | nsopy/quasi_monotone_subgradient_methods.py:53-56 | the new iterate is the running average of the old one and the projected point: `(t+2) next = (t+1) lambda + plus` |
| QuasiMonotone.EntropyStep | nsopy/quasi_monotone_subgradient_methods.py:95-107 | an entropy step raises exactly when `gamma` or `R` is zero, else sets the iterate to `R` times the shifted soft-max |
| QuasiMonotone.EntropySoftmax | nsopy/quasi_monotone_subgradient_methods.py:100-103 | the softmax point has the problem's dimension and, with an idempotent projection, is a fixed point of it |
| QuasiMonotone.EntropyLandsInBox | nsopy/quasi_monotone_subgradient_methods.py:101-106 | when the projection lands in the unit box, the entropy iterate lies in `[-R, 0]` |
| QuasiMonotone.TASchedule | nsopy/quasi_monotone_subgradient_methods.py:151-173 | TA's schedule exists exactly for variants 1 and 2 |
| QuasiMonotone.TAGammaFacts | nsopy/quasi_monotone_subgradient_methods.py:151-169 | both schedule coefficients vanish exactly when `gamma = 0`, and otherwise their ratio lies strictly in (0, 1) |
| QuasiMonotone.TATauFacts | nsopy/quasi_monotone_subgradient_methods.py:151-169 | TA's mixing weight lies in (0, 1]: `1/(t+2)` for variant 1, `2/(t+2)` for variant 2, and 1 on variant 2's first step |
| QuasiMonotone.TriangularClosedForm | nsopy/quasi_monotone_subgradient_methods.py:168 | the denominator of variant 2's mixing weight, `sum(range(n))`, is `n(n-1)/2` |
| QuasiMonotone.TAStep | nsopy/quasi_monotone_subgradient_methods.py:145-186 | a TA step raises ValueError on an unknown variant before any update, weights the subgradient by 1 or `t+1` by variant, and raises ZeroDivisionError exactly when `gamma = 0` |
| QuasiMonotone.TAProjected | nsopy/quasi_monotone_subgradient_methods.py:151-176 | the point TA pulls towards `lambda_0` has the problem's dimension and, with an idempotent projection, lies in the dual domain |
| QuasiMonotone.TAIsTripleAverage | nsopy/quasi_monotone_subgradient_methods.py:151-184 | with a known variant and `gamma != 0` a TA step does not raise, and its new iterate is `(1 - tau) lambda_t + tau (rho plus + (1 - rho) lambda_0)` with `tau = 1/(t+2)`, `rho = sqrt(t+1)/sqrt(t+2)` for variant 1 and `tau = 2/(t+2)`, `rho = (t+1)^(3/2)/(t+2)^(3/2)` for variant 2 |
| QuasiMonotone.TAStepBySchedule | nsopy/quasi_monotone_subgradient_methods.py:171-184 | such a step mixes by the schedule's `tau_t` and the ratio `gamma_t / gamma_{t+1}` |
| QuasiMonotone.TARatio | nsopy/quasi_monotone_subgradient_methods.py:178-179 | the schedule's ratio `gamma_t / gamma_{t+1}` does not depend on `gamma` |
| QuasiMonotone.Step | nsopy/quasi_monotone_subgradient_methods.py:45-186 | every quasi-monotone step notifies once with a fresh call, and a raising step leaves the iterate and iteration unchanged |
| QuasiMonotone.Run | nsopy/quasi_monotone_subgradient_methods.py:45-186 | a run, stopped by the first raising step, keeps the state valid, the class, `gamma` and `lambda_0` |
| QuasiMonotone.StepRaisesIffBadConfig | nsopy/quasi_monotone_subgradient_methods.py:45-186 | a step raises exactly on a bad configuration, with the exception that configuration determines |
| QuasiMonotone.RunAccounting | nsopy/quasi_monotone_subgradient_methods.py:45-186 | a run's notifications each show their own iterate's value and call; it raises at its first step exactly on a bad configuration, and otherwise advances by `n` |
| QuasiMonotone.StepStaysInBox | nsopy/quasi_monotone_subgradient_methods.py:45-186 | with a projection into a box, DSA and TA iterates stay in the box |
| LegacyQuasiMonotone.NewLegacyDSA | methods/quasi_monotone_subgradient_methods.py:17-37 | the legacy DSA starts at the origin with no calls |
| LegacyQuasiMonotone.NewLegacyTA | methods/quasi_monotone_subgradient_methods.py:57-80 | the legacy TA starts at the origin, unprojected, and remembers it as `lambda_0` |
| LegacyQuasiMonotone.LegacyStep | methods/quasi_monotone_subgradient_methods.py:39-123 | a legacy step raises exactly on a bad configuration without notifying; otherwise it notifies once after the update, showing the new iterate with the old iterate's value |
| LegacyQuasiMonotone.LegacyRun | methods/quasi_monotone_subgradient_methods.py:39-123 | a legacy run keeps the state valid, the class and `gamma` |
| LegacyQuasiMonotone.SameLawLaterNotice | methods/quasi_monotone_subgradient_methods.py:39-123 | the legacy and current classes compute the same next state and exception, and differ only in which iterate the notification shows |
| LegacyQuasiMonotone.LegacyRunAccounting | methods/quasi_monotone_subgradient_methods.py:39-123 | a legacy run notifies once per successful step, counts one call per step, and a raising run has no notification |
| LegacyQuasiMonotone.LegacyRunPairsWithPrevious | methods/quasi_monotone_subgradient_methods.py:39-123 | every legacy notification pairs its iterate with the value of the iterate shown just before it |
| Universal.BregmanMap | nsopy/universal_gradient_methods.py:18-23 | the Euclidean Bregman step `lambda + g/M` |
| Universal.BregmanMapInverts | nsopy/universal_gradient_methods.py:18-23 | the map moves by exactly `g/M`: scaling the displacement by `M` recovers `g` |
| Universal.FirstAccepted | nsopy/universal_gradient_methods.py:124-141 | the backtracking search returns the smallest accepted exponent within the fuel, or none if no candidate passes |
| Universal.Trial | nsopy/universal_gradient_methods.py:124-141 | the trial constant at exponent `i` is `2^i L`, positive |
| Universal.Relax | nsopy/universal_gradient_methods.py:147-148 | after acceptance `L` becomes `2^(i-1) L`, which halves it when the first trial passes |
| Universal.StartAverage | nsopy/universal_gradient_methods.py:78-82 | the corrected start of the averaging sums: weight 0 and empty sums of the problem's dimension |
| Universal.AsWrittenStart | nsopy/universal_gradient_methods.py:78-82 | as written, the weight starts at `1/L_0`, the iterate sum at `lambda_hat_0`, and the value sum at 0 |
| Universal.StartIsBalanced | nsopy/universal_gradient_methods.py:78-82 | the empty sums are a consistent weighted average of any point and value |
| Universal.AccumulateKeepsBalance | nsopy/universal_gradient_methods.py:151-155 | adding a weighted term for the same point and value keeps the sums a weighted average of them |
| Universal.BalancedTildeIsConstant | nsopy/universal_gradient_methods.py:151-155 | when all averaged points and values are the same, the tilde outputs are exactly that point and value |
| Universal.AsWrittenAverageIsNotAnAverage | nsopy/universal_gradient_methods.py:78-82 | as written, a constant value of 1 averages to 2/3 after the first step |
| Universal.FastCoefficientRoot | nsopy/universal_gradient_methods.py:432-433 | the fast method's coefficient is the positive root of `2^i L a^2 = A + a` |
| Universal.FastTau | nsopy/universal_gradient_methods.py:434 | `tau = a / (A + a)` lies in (0, 1] and is 1 exactly on the first step |
| Universal.NewUniversal | nsopy/universal_gradient_methods.py:36-99 | a universal method starts at iteration 1 with `L_0 = 1.1`, no calls and every iterate at the projected origin; as written, the averaging weight starts at `1/L_0`, the point sum at the start point and the value sum at 0 |
| Universal.NewUniversalCorrected | nsopy/universal_gradient_methods.py:78-82 | the corrected constructor is the same state with all three averaging sums at zero |
| Universal.StartBalance | nsopy/universal_gradient_methods.py:78-82 | for a constant oracle value `c`, the corrected start satisfies the value balance `sumD = c * weight`, and the constructors' own start satisfies it exactly when `c = 0` |
| Universal.Prepared | nsopy/universal_gradient_methods.py:112-118 | the primal and dual methods' first step queries the hat point once, stores its value and subgradient as the reported ones and leaves the reported primal point `x_k` as it was; later steps skip this |
| Universal.Report | nsopy/universal_gradient_methods.py:174-185 | without averaging the method reports the hat iterate; with it, the averaged point and a fresh oracle answer there, costing one call |
| Universal.Averaged | nsopy/universal_gradient_methods.py:151-155 | the accepted point joins the averages and the tilde pair is refreshed, nothing else changes |
| Universal.PrimalSearch | nsopy/universal_gradient_methods.py:124-141 | the primal search accepts the smallest exponent that passes the test, or none within the fuel |
| Universal.PrimalAccepted | nsopy/universal_gradient_methods.py:104-188 | an accepted primal step costs `i+1` calls (plus one with averaging), relaxes `L`, moves the hat to the accepted point with the oracle's value, subgradient and primal point there, and averages the previous hat |
| Universal.PrimalStep | nsopy/universal_gradient_methods.py:104-188 | a primal step raises SearchExhausted exactly when the search fails, and otherwise notifies once with the accepted state |
| Universal.DualSearch | nsopy/universal_gradient_methods.py:286-311 | the dual search accepts the smallest exponent that passes its test, or none within the fuel |
| Universal.DualAccepted | nsopy/universal_gradient_methods.py:267-351 | an accepted dual step costs two calls per candidate, moves the hat to the test point with the oracle's value, subgradient and primal point there, accumulates `phi` by `g/(2L)`, and averages the image point |
| Universal.DualStep | nsopy/universal_gradient_methods.py:267-351 | a dual step raises SearchExhausted exactly when the search fails, and otherwise notifies once with the accepted state |
| Universal.FastCandidateAt | nsopy/universal_gradient_methods.py:428-454 | each fast candidate has a positive coefficient, a weight in (0, 1], and points of the problem's dimension |
| Universal.FastSearch | nsopy/universal_gradient_methods.py:428-454 | the fast search accepts the smallest exponent that passes its test, or none within the fuel |
| Universal.FastAccepted | nsopy/universal_gradient_methods.py:416-489 | an accepted fast step costs two calls per candidate, updates `a`, `tau` and `A`, advances `phi` by `a` times the previous hat subgradient, moves the hat to the test point with the oracle's value, subgradient and primal point there, and reports the test point, or `y` with averaging |
| Universal.FastStep | nsopy/universal_gradient_methods.py:416-489 | a fast step raises SearchExhausted exactly when the search fails, and otherwise notifies once |
| Universal.PrimalAccounting | nsopy/universal_gradient_methods.py:104-188 | the primal step's outcome obeys the shared accounting of raising, acceptance, `L`, calls and notifications |
| Universal.DualAccounting | nsopy/universal_gradient_methods.py:267-351 | the dual step's outcome obeys the same accounting |
| Universal.FastAccounting | nsopy/universal_gradient_methods.py:416-489 | the fast step's outcome obeys the same accounting |
| Universal.StepAccounting | nsopy/universal_gradient_methods.py:104-188 | whichever method (the primal `dual_step` here, the dual one at lines 267-351 and the fast one at 416-489), a step accepts the smallest passing exponent, relaxes `L`, pays one or two calls per candidate plus the extras, and notifies as stated |
| Universal.Step | nsopy/universal_gradient_methods.py:104-188 | a step of any of the three methods keeps the state valid and the kind, raises only SearchExhausted, and otherwise advances the iteration and notifies last with the new state |
| Universal.FirstNoticeShowsStart | nsopy/universal_gradient_methods.py:112-118 | the primal and dual methods' first step begins with one notification of the initial hat point and its value |
| Universal.StepReports | nsopy/universal_gradient_methods.py:174-185 | a finished step reports the hat iterate, or with averaging the projected tilde point (`y` for the fast method) with its oracle answer |
| Universal.DualHatIsProjectedPhi | nsopy/universal_gradient_methods.py:328-334 | after an accepted dual step the hat iterate is the projection of the accumulated `phi` |
| Universal.FastBookkeeping | nsopy/universal_gradient_methods.py:460-474 | after a fast step `A` grows by `a`, `2^i L a^2 = A`, `tau A = a`, and `tau` is 1 exactly on the first step |
| Universal.FastStaysInBox | nsopy/universal_gradient_methods.py:460-474 | with a projection into a box, the fast method's `y` and hat stay in the box |
| Universal.ValueAverageKeepsConstant | nsopy/universal_gradient_methods.py:151-155 | accumulating a constant value into an average of that value keeps the tilde value equal to it |
| Universal.ConstantValueAveragesToItself | nsopy/universal_gradient_methods.py:151-155 | from sums balanced for a constant value `c` (as the corrected start is), a constant oracle's averaged value `d_tilde` is `c` after every primal or dual step, and the sums stay balanced |
| Universal.PreparedStoresValue | nsopy/universal_gradient_methods.py:112-118 | the first-step query stores the hat value and leaves the averages untouched |
| Universal.LoggersFollowUniversal | nsopy/method_loggers.py:123-169 | the DGM/FGM logger always accepts a universal method's notification; the visualisation logger accepts it exactly from the primal and dual methods |
| Bundle.CutAt | nsopy/bundle_methods.py:106-109 | the cut built at `lambda` passes through `-d(lambda)` there |
| Bundle.CutIsLinearisation | nsopy/bundle_methods.py:106-109 | a cut is the negated linearisation `-d - <g, v - lambda>` of the dual at its point |
| Bundle.DomainRows | nsopy/bundle_methods.py:143-167 | the rows each dual-domain type adds: none for "free", one per coordinate for the orthant, one sum row, `dim/2` pairs for "mrf", none for an unknown type |
| Bundle.MisspeltDomainIsSilent | nsopy/bundle_methods.py:164-165 | as written, a misspelt type such as "positive" adds no row and raises nothing |
| Bundle.CheckedDomainRows | nsopy/bundle_methods.py:164-165 | the corrected check fails with ValueError exactly on an unknown type and otherwise gives the same rows |
| Bundle.WithDomain | nsopy/bundle_methods.py:143-167 | the rows are appended after the model's earlier rows, the model then admits exactly the earlier points that satisfy the new domain, and an unknown type leaves the rows as they were |
| Bundle.FreeDomainMeaning | nsopy/bundle_methods.py:145-146 | the free domain admits every point |
| Bundle.OrthantDomainMeaning | nsopy/bundle_methods.py:147-149 | the orthant rows admit exactly the points with non-negative coordinates |
| Bundle.SumDomainMeaning | nsopy/bundle_methods.py:150-151 | the sum row admits exactly the points whose coordinates sum to `param` |
| Bundle.MrfDomainMeaning | nsopy/bundle_methods.py:159-163 | the mrf rows admit exactly the points whose first and second halves cancel pairwise |
| Bundle.NewCP | nsopy/bundle_methods.py:32-83 | cutting planes start at the projected origin, searching, with an empty bundle, no rows and `f_hat = -inf` |
| Bundle.CPSetDualDomain | nsopy/bundle_methods.py:143-167 | as written, the domain's rows join the model and nothing else changes, so it admits exactly the earlier points that satisfy the new domain; an unknown type leaves the method unchanged and raises nothing |
| Bundle.CPStep | nsopy/bundle_methods.py:85-118 | a step queries the oracle at the iterate, stops when the gap closes, and otherwise adds the cut and moves to the solver's point for the model; a stopped method only counts iterations |
| Bundle.CPRun | nsopy/bundle_methods.py:85-118 | `n` cutting-plane steps keep the state valid |
| Bundle.CPFirstStepCuts | nsopy/bundle_methods.py:85-118 | the first step never stops and adds the cut at the projected origin |
| Bundle.CPRunAccounting | nsopy/bundle_methods.py:85-118 | over a run the bundle only grows, iterations advance by `n`, and calls equal cuts added plus one for the stopping query |
| Bundle.NewBundle | nsopy/bundle_methods.py:176-237 | the bundle method starts at the projected origin, searching, with an empty bundle and the given `epsilon` and `mu` |
| Bundle.BundleSetDualDomain | nsopy/bundle_methods.py:318-342 | as written, the same meaning as on cutting planes for the bundle method's model, an unknown type included |
| Bundle.BundleStart | nsopy/bundle_methods.py:240-251 | the first step queries the start, adds its cut and makes it the centre with its value |
| Bundle.BundleSearch | nsopy/bundle_methods.py:253-261 | the search moves the iterate to the solver's point for the proximal model, keeping the other fields |
| Bundle.BundleStep | nsopy/bundle_methods.py:239-286 | a step advances the iteration and notifies once with the new state, keeping `epsilon`, `mu` and the rows |
| Bundle.BundleRun | nsopy/bundle_methods.py:239-286 | `n` bundle steps keep the state valid |
| Bundle.BundleStepBookkeeping | nsopy/bundle_methods.py:239-286 | the bundle only grows, one call per cut added, at most two per step; a stopped method only counts iterations |
| Bundle.SeriousStepRule | nsopy/bundle_methods.py:263-276 | the centre moves to the candidate exactly on a serious step, and the centre's value never decreases |
| Bundle.BundleStopRule | nsopy/bundle_methods.py:253-261 | the method stops exactly when the model gap is below `epsilon`, and then only the iterate moves |
| Bundle.BundleFirstStep | nsopy/bundle_methods.py:240-255 | the first step centres at the projected origin with its cut and moves to the solver's point for the model |
| Bundle.BundleRunAccounting | nsopy/bundle_methods.py:239-286 | over a run the bundle only grows, calls match cuts added, and the centre's value never decreases |
| MethodsFactory.Select | nsopy/methods_factory.py:23-163 | a configuration exists exactly for the ten available names |
| MethodsFactory.DualMethodsFactory | nsopy/methods_factory.py:23-163 | the current factory builds exactly the available methods, each asked to maximise |
| MethodsFactory.LegacyDualMethodsFactory | methods/methods_factory.py:22-150 | the legacy factory builds exactly the available methods, without a sense argument |
| MethodsFactory.AvailableMethodsDistinct | nsopy/methods_factory.py:9-20 | the ten method names are pairwise distinct |
| MethodsFactory.SelectRoundTrip | nsopy/methods_factory.py:27-163 | the built method's name is the requested one, and a non-zero `param` is its tuning value, otherwise that family's default |
| MethodsFactory.BundleKeepsDefaultMu | nsopy/methods_factory.py:148-163 | the bundle method always gets the default `mu`; `param` only sets `epsilon` |
| MethodsFactory.FactoryAvoidsBadConfig | nsopy/methods_factory.py:97-131 | the factory only builds TA variants 1 and 2 and, with a non-zero default `gamma`, no quasi-monotone configuration that raises |
| MethodsFactory.FactoriesAgree | methods/methods_factory.py:22-150 | with the current defaults the legacy factory builds the same method as the current one, except for the sense argument |
| OracleUtils.InvertOracleSense | nsopy/utils.py:6-12 | the wrapped oracle keeps the primal point and negates the value and every subgradient component |
| OracleUtils.InvertTwiceIsIdentity | nsopy/utils.py:6-12 | wrapping twice gives back the original oracle's answers |
| OracleUtils.InvertKeepsConsistent | nsopy/utils.py:6-12 | wrapping preserves the problem's dimensions |
| OracleUtils.InvertFlipsSupergradient | nsopy/utils.py:6-12 | a supergradient of the value becomes a subgradient of the negated value |
| AnalyticalOracles.Indicator | examples/analytical_oracles.py:65-67 | the inner minimiser of a single coordinate is 0 or 1 |
| AnalyticalOracles.IndicatorMinimises | examples/analytical_oracles.py:65-67 | choosing 1 exactly on negative costs minimises `c y` over `[0, 1]` |
| AnalyticalOracles.Indicators | examples/analytical_oracles.py:65-67 | the coordinate-wise choice lies in the unit cube |
| AnalyticalOracles.IndicatorsMinimise | examples/analytical_oracles.py:65-67 | the coordinate-wise choice minimises `<c, y>` over the unit cube |
| AnalyticalOracles.FirstOracle | examples/analytical_oracles.py:25-75 | the first fixture's answer has a primal point in the cube and a value at most `l_0 - l_1` |
| AnalyticalOracles.FirstOracleMinimises | examples/analytical_oracles.py:25-75 | the returned value is the Lagrangian at the returned point and is the minimum over the cube |
| AnalyticalOracles.FirstLagrangianLinear | examples/analytical_oracles.py:61-63 | the first Lagrangian is linear in `y` with the costs the oracle computes |
| AnalyticalOracles.FirstOracleSupergradient | examples/analytical_oracles.py:69-73 | the returned `g` is a supergradient of the first dual function |
| AnalyticalOracles.FirstOptimum | examples/analytical_oracles.py:17-20 | the dual optimum is -0.5, reached on the documented segment `[1, t]` for `t` in `[1, 1.5]` |
| AnalyticalOracles.FirstProjection | examples/analytical_oracles.py:77-79 | the first projection lands in the non-negative orthant |
| AnalyticalOracles.FirstProjectionFixesOrthant | examples/analytical_oracles.py:77-79 | it fixes exactly the orthant's points and is idempotent |
| AnalyticalOracles.SecondOracle | examples/analytical_oracles.py:116-135 | the second fixture's answer has a primal point in the square |
| AnalyticalOracles.SecondLagrangianLinear | examples/analytical_oracles.py:123-124 | the second Lagrangian is linear in `y` with the costs the oracle computes |
| AnalyticalOracles.SecondOracleMinimises | examples/analytical_oracles.py:116-135 | the returned value is the Lagrangian at the returned point and is the minimum over the square |
| AnalyticalOracles.SecondOracleSupergradient | examples/analytical_oracles.py:129-131 | the returned `g` is a supergradient of the second dual function |
| AnalyticalOracles.SecondOptimum | examples/analytical_oracles.py:94-97 | the dual optimum is -1, reached at `(1, 0)` |
| AnalyticalOracles.SecondProjection | examples/analytical_oracles.py:137-139 | the second projection clips the first coordinate at 0 and keeps the second |
| AnalyticalOracles.SecondProjectionIdempotent | examples/analytical_oracles.py:137-139 | it is idempotent and fixes exactly the points with non-negative first coordinate |
| AnalyticalOracles.ConstrainedOracle | examples/analytical_oracles.py:190-219 | the constrained fixture answers with a 5-dimensional primal point and a 2-dimensional subgradient |
| AnalyticalOracles.ConstrainedSentinel | examples/analytical_oracles.py:213-215 | the oracle returns its infinite sentinel exactly when `l_0 + l_1` is more than 0.01 from 0.5 |
| AnalyticalOracles.ConstrainedProjection | examples/analytical_oracles.py:221-223 | the constrained projection returns a 2-vector |
| AnalyticalOracles.ConstrainedProjectionLandsOnLine | examples/analytical_oracles.py:221-223 | it lands on the line `l_0 + l_1 = 0.5`, fixes exactly that line, is idempotent, and the oracle is defined there |
| AnalyticalOracles.BertsekasOracle | examples/analytical_oracles.py:236-265 | the Bertsekas fixture answers exactly near the line `l_0 + l_1 = 0.5` |
| AnalyticalOracles.BertsekasProjection | examples/analytical_oracles.py:267-269 | the Bertsekas projection lands on the line |
| AnalyticalOracles.BertsekasIsConstrained | examples/analytical_oracles.py:236-269 | the Bertsekas fixture's oracle and projection coincide with the constrained fixture's |

## Left out

- Floating point: the model computes in real numbers. Rounding, overflow and `inf` are not modelled.
- `time`, `print`, the `desc` strings and pandas bookkeeping are left out. Clock readings are parameters of the logger updates.
- `record_logger` and `flatten_record_dataframe` (nsopy/utils.py:15-75) are left out, because they are I/O and pandas reshaping.
- The Gurobi model inside `min_of_bundle` is an abstract solver `LpModel -> Solution`. The model assumes only that the solver returns points of the right dimension, not that they are optimal.
- Bundle.DomainRows: the "2 stage smps" domain is excluded by its precondition, because it reads attributes of the oracle's bound object (`im_self`), which is outside the model.
- Universal.PrimalSearch: the backtracking `while True` loops of the three universal methods run on a `fuel` bound. They raise `SearchExhausted` when the fuel runs out, where the source would keep looping.
- Universal.DualSearch: same fuel bound as the primal search.
- Universal.FastSearch: same fuel bound as the primal search.
- Subgradient.NewSG: the dimension inference from an oracle call when `dimension == 0` is left out, and the placeholder `x_k = 0` is modelled as no primal point.
- Universal.NewUniversal: the dimension inference when `dimension == 0` is left out. The fast method's `a_k` starts as a copy of the hat vector in the source (nsopy/universal_gradient_methods.py:393). The model keeps a scalar 0 instead, because no step reads that placeholder.
- Bundle.NewBundle: the placeholder centre is the origin and the first step overwrites it. The dimension inference is left out.
- MethodLoggers.Update: when an update fails partway, the model drops the lists it had already appended to. Python keeps those appends.
- MethodsFactory.DualMethodsFactory: `nsopy.methods.*`, the modules the current factory constructs from, is not part of this model. The model assumes their defaults equal the modelled ones and records the sense request as a flag.
- MethodsFactory.LegacyDualMethodsFactory: the legacy defaults other than `gamma` are parameters, because they live in modules outside this model.
- AnalyticalOracles.FirstOracle: the fixture oracles require at least two multipliers, because the source indexes `lambda_k[0]` and `lambda_k[1]` and fails otherwise.
- AnalyticalOracles.ConstrainedOracle: the `±inf` sentinel is modelled as `Reply.Undefined`. The constrained fixtures are not turned into a `Problem`, since their oracle is partial.
- The fixtures' warning prints are left out.

Where the code and its documentation disagree, the model follows the code:

- **Unknown step rule.** An unknown subgradient step rule falls back to the constant step and keeps the old name. It does not raise.
- **Which iterate CP and bundle notify.** A cutting-plane step that does not stop notifies with the new iterate `lambda_{k+1}`, paired with the value `d(lambda_k)` of the iterate it queried (nsopy/bundle_methods.py:89, 112). The bundle method has the same mismatch only on its stopping step: the iterate moves to the solver's point and is not queried (nsopy/bundle_methods.py:255-261). On every other bundle step the new iterate is queried, so the notification pairs `lambda_{k+1}` with `d(lambda_{k+1})`.
- **DSA start point.** DSA and its entropy variant start at the unprojected origin. The constructor overwrites the projection it computed.
- **Legacy notification order.** The legacy quasi-monotone classes notify after the update, not before it.
- **Fast method's `phi`.** The fast method accumulates `phi` with the previous hat subgradient (nsopy/universal_gradient_methods.py:468).

## Findings

The method states follow the code as written. `Bundle.CPSetDualDomain` and
`Bundle.BundleSetDualDomain` never raise, and `Universal.NewUniversal`
starts the averages at `1/L_0`. The corrected behaviours are separate
members: `Bundle.CheckedDomainRows` for the domain check, and
`Universal.NewUniversalCorrected` with `Universal.StartBalance` for the
averaging start.

| source | as written | input that shows it | evidently intended | confidence | as-written member | corrected member |
|---|---|---|---|---|---|---|
| nsopy/universal_gradient_methods.py:78-82 (also 241-245) | the averaging weight starts at `1/L_0` and the iterate sum at `lambda_hat_0`, but the value sum starts at 0, so the first term is counted in the weight and not in the value sum | a constant oracle value 1, `L_0 = 1.1`, the first candidate accepted (`L_1 = 0.55`): `d_tilde = (1/0.55)/(1/1.1 + 1/0.55) = 2/3` instead of 1 | the tilde pair is the weighted average of the accepted points and values with weights `1/L_{k+1}`, so all three sums start at 0 | not executed | Universal.AsWrittenAverageIsNotAnAverage | Universal.ConstantValueAveragesToItself |
| nsopy/bundle_methods.py:164-165 (also 339-340) | `ValueError(...)` is constructed but not raised, so an unknown domain type silently adds no constraint | `set_dual_domain(type='positive')` | raise `ValueError` on an unrecognised type | not executed | Bundle.MisspeltDomainIsSilent | Bundle.CheckedDomainRows |
