# Power board firmware: a verified model

This project models the deployment firmware of a supercapacitor-backed power board and
proves properties of it: the hardware sequencer over two TCA9535 port expanders, the power
policy, the loop that composes the two, the wire protocol on both ends of the USB link, the
crash-consistent journal, and the supervision of a main-loss episode on the bench.

| file | models |
|---|---|
| `Bits.dfy`, `Clock.dfy`, `Voltages.dfy`, `Options.dfy` | bytes as eight pins, the wrapping millisecond clock, voltages in 0.1 mV |
| `Expander.dfy` | the expanders' registers, the trace of everything that happens to them, the sequencing rules and what a trace that obeys them guarantees |
| `Wire.dfy` | the I2C bus: any transfer may fail, a failed write may have been applied, pins may be forced |
| `BoardHardware.dfy` | the staged, preemptible operation machine, and the bound on its run time |
| `PowerManager.dfy` | the policy: pure steps, and the machine that updates its state in place |
| `PolicyLaws.dfy` | what a tick, a result and a reboot request must do, condition by condition, without reference to the stages a tick is made of |
| `PolicyRuns.dfy`, `PolicyTimes.dfy`, `PolicyFacts.dfy` | what every run of the policy keeps: action budget, stale completions, deadlines, charging time |
| `Application.dfy`, `Requests.dfy` | the loop, the shutdown clean-up and cut, request handling, whole runs of the firmware |
| `LoopLaws.dfy` | what the loop makes of a reading, condition by condition: when charging goes on, when main is lost, when a port is granted |
| `LateReboot.dfy`, `LentResult.dfy` | the runs behind the two deviations described below |
| `Grammar.dfy`, `Protocol.dfy`, `Printer.dfy` | the request language, the cursor parser, the host's printer |
| `Framing.dfy`, `UsbOutput.dfy`, `JsonText.dfy`, `Replay.dfy` | line framing on both ends, the output queue, escaped text, the replay ring and its fingerprint |
| `PdbClient.dfy` | the host's client and the evidence it wants before it powers itself off |
| `Journal.dfy`, `SupercapTransfer.dfy`, `Interrupts.dfy` | the two-slot journal, main-loss episodes, the interrupt/acknowledge interleaving |

How it is modelled:

- A pin is *driven* when its latch is one and its direction is output. The bus keeps a ghost
  trace of every write, pin reading, service call and power-good sample; a monitor folds the
  trace and accepts a write only if it obeys the sequencing rules. The lemmas of `Expander`
  say what acceptance means without the monitor; the sequencer's invariant is that its trace
  is accepted, from any retained registers, for any transfer outcomes, delays and preemption.
- True time is an unbounded `nat`; the code reads it modulo 2^32 and subtracts with wrap-around.
- Polls deliver an arbitrary snapshot, fresh or stale. Source budgets and PD negotiation are inputs of
  every loop and of every request; pin levels and the success of board operations are nondeterministic.
- A bus may be *benign*: every transfer gets through, the pins follow their latches and time passes only
  between calls. No safety claim about runs assumes it; it is one environment among all. In it the
  hardware is exact: `Calm` gives the board after a service() call from the board before it, for every
  stage of every operation, and `Looped` the scene after a loop. What must happen is proved there (a
  favoured operation succeeds), and the two runs that show a deviation are carried out there, from
  power-up or from a whole family of states.
- `RolledBack` and `faults`: a rollback can promise nothing on a dead bus, so its contract is that
  it reaches its goal whenever every transfer of that call was acknowledged.

Two places where the code does not do what its documentation suggests, stated exactly:

- *A reboot request can lapse.* `firmware/deployment/API.md` (line 152) says that at shutdown
  entry the charger is disabled. It is if the first tick comes less than 5 s (or at least 60 s) after
  the request; in between, the pending RequestJetsonShutdown times out before the loop ever sees
  it, charging is not taken down and an enable operation in flight goes on until power is cut.
  Whether the driven set only shrinks from the entry on depends on two facts: how late the first tick is
  (`Late`) and whether an operation that could still raise an enable was under way at the entry
  (`armed`). Unless both hold it only shrinks, in every run (`Application.Loop.RunStands`,
  `Requests.AnyRun`). If both hold, the stage that raises the enable raises it or fails
  (`BoardHardware.BoardHardware.Service`, `Application.Loop.Iterate`), and
  `LateReboot.RaisedInShutdown` is a whole run, from any retained registers, in which it does.
- *StopCharging can report a port's result.* A port request accepted while StopCharging waits for
  its result lends it the result of the port operation. `Application.Loop.ResultIsOwn` says
  exactly when a reported result is the action's own; `LentResult.StopLent` carries out, from every
  loop about to end such a teardown, how a teardown that succeeded is reported as failed, and
  `LentResult.StopPendingReached` shows that the policy gets there.

## Model

| member | source | states |
|---|---|---|
| Expander.BoostDropsAfterCeDecay | firmware/deployment/BoardHardware.cpp:312-387 | In a run that obeys the rules a write takes the driven boost bit away only when CE was read low on its pin at least 100 ms of true time earlier and has been latched and driven low ever since |
| Expander.CeRaisedOnlyOnPreparedSupply | firmware/deployment/BoardHardware.cpp:434-442 | The driven CE bit is raised only by EnableCharge, onto driven boost with low current and the real thermistor, selected by PrepareCharge at least 500 ms earlier, with no DisableCharging, Reconcile or RestorePor stage in between |
| Expander.ProfileBitsNeverRaised | firmware/deployment/BoardHardware.cpp:407-412 | No write of any operation raises the driven high-current or thermistor-override bit |
| Expander.J8RaisedOnlyOnGoodBuck | firmware/deployment/BoardHardware.cpp:462-468 | J8 is raised only by a port enable while its buck is driven and its power-good was sampled good by every service call over at least 100 ms |
| Expander.OutputsMoveByTheirOwn | firmware/deployment/BoardHardware.cpp:239-251 | Over an accepted trace 5V_VBUS is the external pin 0, VBUS 1, VBUS_SS 2 and 5V_SS 3: each is raised only by a port enable for that very output, lowered only by a port operation for it, by reconciliation or by the return to power-on defaults; no other external pin is ever raised; the buck moves only for 5V_VBUS and boost is raised only by PrepareCharge |
| Expander.OutputStands | firmware/deployment/BoardHardware.cpp:445-488 | An output stands as it is over any stretch in which no port operation for it, no reconciliation and no restore executes |
| Expander.BuckKeptUnderJ8 | firmware/deployment/BoardHardware.cpp:262-278 | No write, rollback included, takes the buck away from a driven J8 |
| Expander.DependencyIsInvariant | firmware/deployment/BoardHardware.cpp:354-359 | Once "J8 driven implies buck driven" holds (as after a successful Reconcile) it holds for ever |
| Expander.LoweringStretchShrinks | firmware/deployment/BoardHardware.cpp:310-396 | Over any stretch in which only lowering operations execute, every enable driven at its end was driven at its start, on both ports of both expanders |
| Expander.WritesSequenced | firmware/deployment/BoardHardware.cpp:308-489 | Every write of an accepted trace satisfies all the sequencing promises at once |
| Expander.AcceptedTracesAreSequenced | firmware/deployment/BoardHardware.cpp:308-489 | A whole accepted trace is sequenced |
| Expander.CeLowWitness | firmware/deployment/BoardHardware.cpp:197-216 | The evidence that CE is low is a pin reading, unbroken by any later write |
| Expander.SelectedWitness | firmware/deployment/BoardHardware.cpp:407-412 | The evidence that the supply is selected is a write of PrepareCharge that nothing disturbed |
| Expander.BuckGoodWitness | firmware/deployment/BoardHardware.cpp:287-297 | The evidence for a good buck is an unbroken series of good samples, one per service call |
| Wire.Bus.WriteRegister | firmware/deployment/BoardHardware.cpp:48-54 | An acknowledged write took effect; a failed one changed nothing or was applied all the same |
| Wire.Bus.ReadPair | firmware/deployment/BoardHardware.cpp:31-46 | A read fails or returns the registers as they are |
| Wire.Bus.ReadInputs | firmware/deployment/BoardHardware.cpp:31-46 | An input read fails or returns the pins through the polarity registers |
| BoardHardware.BoardHardware.constructor | firmware/deployment/BoardHardware.cpp:81-106 | Starting over any retained registers, nothing is assumed about them |
| BoardHardware.BoardHardware.ReadExpander | firmware/deployment/BoardHardware.cpp:56-70 | A complete expander state is read as it is, or the read fails |
| BoardHardware.BoardHardware.VerifyOperational | firmware/deployment/BoardHardware.cpp:171-183 | Success means both expanders hold exactly the operational configuration and the cached latches |
| BoardHardware.BoardHardware.WriteControl | firmware/deployment/BoardHardware.cpp:185-195 | Success means the latch holds the value behind the operational configuration, was read back on the pins, and the cache follows; a failure may have been applied; on a benign bus and a board as cached it succeeds |
| BoardHardware.BoardHardware.VerifyControlLow | firmware/deployment/BoardHardware.cpp:197-205 | Success means the latch misses the mask and, for CE, that the pin was read low; the cache takes the latch over |
| BoardHardware.BoardHardware.ForceCeLow | firmware/deployment/BoardHardware.cpp:207-216 | Takes enables away only, leaves CE latched and driven low whenever its transfers get through, and stamps the decay time only after the pin was read low |
| BoardHardware.BoardHardware.BeginOperation | firmware/deployment/BoardHardware.cpp:218-231 | Starts a stage-0 job unless one runs and may not be preempted or monitoring is off; otherwise nothing changes |
| BoardHardware.BoardHardware.StartOperation | firmware/deployment/BoardHardware.cpp:233-237 | Only DisableCharging and RestorePor preempt a running operation |
| BoardHardware.BoardHardware.StartPort | firmware/deployment/BoardHardware.cpp:239-251 | A port operation waits for its turn and keeps port and direction of the request; which pin that is the trace laws say |
| BoardHardware.BoardHardware.FailOperation | firmware/deployment/BoardHardware.cpp:256-285 | A rollback raises nothing; when its transfers get through, a failed charge operation has CE latched and driven low, a failed port enable its bit cleared (on a benign bus with 5V_VBUS its converter too), a failed reconciliation everything external off; a failed teardown or disable writes nothing more |
| BoardHardware.BoardHardware.ClearActual | firmware/deployment/BoardHardware.cpp:265-278 | Lowers only the requested bits of the latch as read back, never replaying the cache, which takes the readback over; success means the pins were read low |
| BoardHardware.BoardHardware.WaitPg | firmware/deployment/BoardHardware.cpp:287-297 | Done only after 100 ms of good samples; still waiting only while less than 2 s of true time passed, however the power-good flaps; on a benign bus done exactly then, and failed exactly at 2 s |
| BoardHardware.BoardHardware.VerifyPor | firmware/deployment/BoardHardware.cpp:299-306 | Success means both expanders are at exactly FFFF outputs, FFFF directions and 0000 polarity and every enable pin was read low; registers that are so pass on a benign bus |
| BoardHardware.BoardHardware.ReconcileStage | firmware/deployment/BoardHardware.cpp:312-371 | Each stage leaves what the next relies on: CE decayed before anything else, external latches before internal, all latches low before any direction changes |
| BoardHardware.BoardHardware.ServiceReconcile | firmware/deployment/BoardHardware.cpp:310-374 | Reconcile ends at all enables off with the operational directions, RestorePor at the power-on registers, both with every enable pin read low last; both only take enables away; on a benign bus every stage goes through, from any registers |
| BoardHardware.BoardHardware.ServiceDisable | firmware/deployment/BoardHardware.cpp:376-387 | Success means CE and boost latches are low and their pins were read low last; boost goes 100 ms after CE was proven low; on a benign bus exactly CE and boost are taken from whatever was there |
| BoardHardware.BoardHardware.ServicePrepare | firmware/deployment/BoardHardware.cpp:397-432 | Success means a standing selection of boost, low current and real thermistor, at least 500 ms old, with boost, charger and thermistor good and the profile read low on the pins; on a benign bus each stage does exactly its own writes, waits exactly as long as it must and succeeds iff the readings qualify |
| BoardHardware.BoardHardware.ServiceEnable | firmware/deployment/BoardHardware.cpp:434-443 | One stage: success means CE is driven and was read high, on a prepared supply with boost, charger and thermistor good and VCAP under 21 V; on a benign bus it succeeds exactly on a prepared board as cached with that, boost in the cache and the profile out of it |
| BoardHardware.BoardHardware.ServicePort | firmware/deployment/BoardHardware.cpp:445-488 | Success means the pin of the requested output is driven (5V_VBUS 0, VBUS 1, VBUS_SS 2, 5V_SS 3) with its own power-good found good by every call for 100 ms, or that very latch and for 5V_VBUS its buck are low and were read low; a disable only takes away; on a benign bus each stage of each of the four outputs is exact, and a backed output goes on iff the backed converter is up on live main or a live backup |
| BoardHardware.BoardHardware.Service | firmware/deployment/BoardHardware.cpp:308-489 | One call keeps the sequencing invariant for any bus outcome, makes progress or stays within its stage limit, achieves the operation when it succeeds; it only shrinks the driven set unless an enable is still to be raised, and the stage that raises one does so or fails; taking charging down leaves the external registers alone; an enable goes on only on a reconciled board and, for charging and the unbacked outputs, with main live in a reading at most 350 ms old; on a benign bus the board after the call is exactly what the stage makes of it, an enable fails iff what it needs is missing, and a failure leaves its rollback done |
| BoardHardware.BoardHardware.CurrentMain | firmware/deployment/BoardHardware.cpp:161-169 | Main is live iff a snapshot at most 350 ms old shows the mux on main, exactly one input good and the backed converter up, and the mux pin is still high |
| BoardHardware.BoardHardware.SetBackup | firmware/deployment/BoardHardware.cpp:491-499 | GPIO42 changes only as asked and only under live main, at most 350 ms old; it is raised only between 10 and 21 V; on a benign bus it is granted exactly then |
| BoardHardware.BoardHardware.ReleaseBackupForShutdown | firmware/deployment/BoardHardware.cpp:507-512 | The final release lowers GPIO42 whatever the readback says |
| BoardHardware.AnyRun | firmware/deployment/BoardHardware.cpp:308-489 | Any commands in any order from any retained registers are answered one after the other, each with exactly its own effect: starts and preemption, polls, the single stages of service() and nothing else touching the trace; the trace is sequenced and ends at the registers |
| BoardHardware.EveryOperationEnds | firmware/deployment/BoardHardware.cpp:253-297 | With service calls at most g apart no operation is still running 100+12g ms (reconcile, restore, disable), 4100+14g (prepare), 4000+13g (port) or 11g (enable) after its start, whatever the bus and the power-goods do |
| BoardHardware.ServiceRepeatedly | firmware/deployment/BoardHardware.cpp:253-297 | The sequencer meets that bound: over consecutive service() calls, each after its pause and poll and each continuing the board the last one left, a call that finds the operation still running came no later than the bound if calls were at most g apart; and on a benign bus an operation with the readings it needs does not fail, so that it has succeeded when the bound is over; it returns each call with the board around it |
| BoardHardware.StaysOnCourse | firmware/deployment/BoardHardware.cpp:308-489 | One call of any operation on a benign bus with fresh good readings neither fails nor leaves the course of its stages |
| BoardHardware.FavouredRunsGoOn | firmware/deployment/BoardHardware.cpp:308-489 | A run of any length of such calls, at most 900 ms apart and from a board that holds what its caches say, has not failed: with the bound on its time, a favoured operation succeeds |
| BoardHardware.BoardHardware.SuccessStands | firmware/deployment/BoardHardware.cpp:253-254 | What a success made of the registers stands until another operation is started |
| BoardHardware.StageEntry | firmware/deployment/BoardHardware.cpp:253-297 | The stage number and the time left in it form the decreasing measure behind that bound |
| PowerPolicy.Manager.Start | firmware/deployment/PowerManager.cpp:5-13 | A new run forgets everything but the action counter |
| PowerPolicy.Manager.Issue | firmware/deployment/PowerManager.cpp:24-29 | A new action cancels the old one and takes the next nonzero id |
| PowerPolicy.Manager.CompleteAction | firmware/deployment/PowerManager.cpp:31-37 | A result is taken once, for the pending id only |
| PowerPolicy.Manager.LeaveCharging | firmware/deployment/PowerManager.cpp:39-53 | Leaving charging orders a stop and gives an interrupted startup step back |
| PowerPolicy.Manager.BeginShutdown | firmware/deployment/PowerManager.cpp:55-66 | Shutdown cancels what is pending, fixes its start time and requests the host's shutdown |
| PowerPolicy.Manager.RequestFullReboot | firmware/deployment/PowerManager.cpp:68-73 | A reboot is accepted once, outside shutdown |
| PowerPolicy.Manager.FinishAction | firmware/deployment/PowerManager.cpp:75-126 | The effect of each action's result on the policy state |
| PowerPolicy.Manager.OnTick | firmware/deployment/PowerManager.cpp:128-267 | One tick, in the order of the code, updates the state to exactly the specified next state |
| PolicyLaws.ChargingGoesOn | firmware/deployment/PowerManager.cpp:184-245 | A plain tick keeps charging on iff the status is valid, VCAP is known and from 0 to under 21.0 V, there is no charger fault, boost power-good holds once CE is on, initial charging keeps its two hours and its 0.10 V in ten seconds, and boost comes within two seconds of preparation; otherwise charging ends in that tick for the first reason that applies, noted, with StopCharging issued at once; above 20.0 V it turns to maintenance |
| PolicyLaws.ActionsIssued | firmware/deployment/PowerManager.cpp:217-267 | A plain tick that keeps charging issues nothing while something is pending, else the one action that is due: the backup once with main and 10 to 21 V, the enable on boost power-good, the Jetson's port, its ping; and tries, drops and notes nothing else |
| PolicyLaws.ResultTaken | firmware/deployment/PowerManager.cpp:75-126 | A tick first takes the result of the pending action, or gives up after 5 s (15 s for preparation), with exactly that action's effect and issue, and goes on as a plain tick; only a failed preparation or enable ends charging there |
| PolicyLaws.SettlingEnds | firmware/deployment/PowerManager.cpp:141-153 | The first ten seconds do nothing; the tick that ends them prepares charging, or shuts down and notes the missing main |
| PolicyLaws.LossShutsDown | firmware/deployment/PowerManager.cpp:151-157 | Past settling a tick enters shutdown iff a valid reading lacks main, whatever was pending, with a fresh exchange with the host |
| PolicyLaws.WaitGoesOn | firmware/deployment/PowerManager.cpp:155-181 | In the wait the host's replies are latched, the cut comes at 60 s, and before it only the request's result or its five seconds change anything |
| PolicyLaws.CutGoesOn | firmware/deployment/PowerManager.cpp:132-135 | Once power is being cut a tick takes the result and changes nothing else |
| PolicyLaws.RebootShutsDown | firmware/deployment/PowerManager.cpp:55-73 | A begun policy outside shutdown accepts a reboot: the same shutdown with its own reason; any other state is left alone |
| PolicyRuns.StepKeeps | firmware/deployment/PowerManager.cpp:19-267 | Every event keeps the policy invariant and pays for what it issues out of what may still be issued |
| PolicyRuns.ActionBudget | firmware/deployment/PowerManager.cpp:167-259 | In every run from begin(): prepare, enable, stop, shutdown request and cut are each issued at most once, only one startup action is ever repeated, at most nine actions in all |
| PolicyRuns.LeavingChargingStops | firmware/deployment/PowerManager.cpp:39-53 | The event that ends initial charging or its maintenance, shutdown aside, issues StopCharging |
| PolicyRuns.ChargingNeverResumes | firmware/deployment/PowerManager.cpp:217-226 | After StopCharging was issued charging is never expected again |
| PolicyRuns.StaleCompletion | firmware/deployment/PowerManager.cpp:31-37 | Once an action is finished, cancelled or replaced, a completion with its id has no effect for the rest of the run |
| PolicyRuns.SerialsDiffer | firmware/deployment/PowerManager.cpp:24-29 | Ids of one run never coincide, the counter's skip over zero included |
| PolicyTimes.ShutdownStep | firmware/deployment/PowerManager.cpp:132-165 | During shutdown nothing but a tick at the deadline ends the wait, and no event changes its start time or reason |
| PolicyTimes.ShutdownRuns | firmware/deployment/PowerManager.cpp:151-165 | Over any events the deadline stands, and power is cut iff some tick came 60 s or more after the start |
| PolicyTimes.CutExactlyAtDeadline | firmware/deployment/PowerManager.cpp:155-165 | CutPower is issued by the first tick with 60000 ms elapsed and by no other event |
| PolicyTimes.EntryFixesDeadline | firmware/deployment/PowerManager.cpp:55-73 | Shutdown is entered by main loss in a tick or by a reboot request, and its deadline counts from that very event |
| PolicyTimes.ChargingBounded | firmware/deployment/PowerManager.cpp:204-215 | With ticks at most g apart initial charging lasts at most 201 (10 s + g) |
| PolicyTimes.NoChargeTimeLimit | firmware/deployment/PowerManager.cpp:204-215 | With ticks at most 25 s apart the two-hour limit is never what ends a charge |
| PolicyTimes.ChargeMarks | firmware/deployment/PowerManager.cpp:184-215 | After k restarts of the progress timer the voltage is at least 0.1 k V and at most k periods have passed |
| PolicyFacts.StepSound | firmware/deployment/PowerManager.cpp:19-37 | Within one boot ids count up from one and the pending action carries the latest |
| PolicyFacts.TickExpects | firmware/deployment/PowerManager.cpp:75-126 | No tick makes the policy expect the charger on but one that takes a reported success of EnableCharging |
| PolicyFacts.TickWaits | firmware/deployment/PowerManager.cpp:151-177 | A shutdown tick cuts at the deadline; before it the pending request stays unless reported or 5 s old |
| PolicyFacts.TickEnters | firmware/deployment/PowerManager.cpp:151-153 | A tick enters shutdown only on a valid report of absent main, with a fresh request pending |
| PolicyFacts.TickStands | firmware/deployment/PowerManager.cpp:128-267 | While an action stays pending nothing changes what is known of its result |
| PolicyFacts.LapsedStaysEmpty | firmware/deployment/PowerManager.cpp:167-177 | After a shutdown request lapsed, no action reaches the adapter until power is cut |
| PolicyFacts.RebootCanLapse | firmware/deployment/PowerManager.cpp:167-177 | A reboot accepted at time 0 and a tick at 5000 ms: the request is gone and nothing else is pending |
| Application.TickPhased | firmware/deployment/Application.cpp:318-353 | A tick between loops enters shutdown, lets a late request lapse or begins the cut, and nothing else disturbs a shutdown in progress |
| Application.TimelyStep | firmware/deployment/Application.cpp:232-246 | One loop keeps the bounds on the wait, the cut and the release |
| Application.GuardsServiced | firmware/deployment/Application.cpp:353-363 | One hardware stage keeps the shutdown guarantee: the driven set has only shrunk since shutdown was taken up, and since it began unless its first tick came 5 to 60 s late to an operation that could still raise an enable |
| Application.LowMuxShowsLoss | firmware/deployment/Application.cpp:331-334 | A low mux pin reports the loss of main even when the expander cannot be read; present main takes a fresh good reading |
| Application.Loop.TickManager | firmware/deployment/Application.cpp:353-353 | The tick precedes everything else in the loop; a request that meets it 5 to 60 s late lapses |
| Application.Loop.ActionDone | firmware/deployment/Application.cpp:163-170 | The policy is told the result under the active id; the charger is expected on from the success of EnableCharging until that of StopCharging, and whenever the policy expects it on the loop does |
| Application.Loop.PortResult | firmware/deployment/Application.cpp:75-81 | An accepted port request is answered once |
| Application.Loop.DoPrepare | firmware/deployment/Application.cpp:180-197 | Preparation starts only after a successful reconciliation and a budget, and only its success is reported as success |
| Application.Loop.FindBudget | firmware/deployment/Application.cpp:182-190 | After a successful reconciliation a DC input has its configured budget and starts preparation at once, a USB input negotiates one, and anything else fails the action |
| Application.Loop.DoOperation | firmware/deployment/Application.cpp:198-217 | Each of these actions starts its own operation once and reports the result found when nothing runs |
| Application.Loop.DoArm | firmware/deployment/Application.cpp:218-222 | Arming succeeds only with a valid backup power-good, within 2 s; on a benign bus it is asked of the board once, fails iff refused or not up in 2 s, and succeeds iff up |
| Application.Loop.SendPing | firmware/deployment/Application.cpp:93-96 | A ping takes the next nonzero id and the time |
| Application.Loop.DoRequest | firmware/deployment/Application.cpp:225-231 | Taking up shutdown preempts with DisableCharging, reports the waiting port request as failed, starts the clean-up and succeeds; nothing else changes |
| Application.Loop.DoCut | firmware/deployment/Application.cpp:232-248 | The cut starts RestorePor and releases GPIO42 once: when nothing runs any more or after 750 ms |
| Application.Loop.ServiceAction | firmware/deployment/Application.cpp:171-249 | Dispatch writes no register itself; taking up shutdown records the registers from which the driven set may only shrink; an open port request is answered exactly when the board is idle with nothing to dispatch, by the result, or refused when charging is taken down, a shutdown taken up or power cut; a success is reported only when the registers bear it out: CE driven, VBUS_SS driven, CE and boost latched off, the named output on or its latch off; on a benign bus every dispatch is exact |
| Application.Loop.ResultIsOwn | firmware/deployment/Application.cpp:198-217 | The result an action is given is that of its own operation iff no port request was accepted while StopCharging waited |
| LentResult.StopPendingReached | firmware/deployment/PowerManager.cpp:128-267 | A charger fault after a complete start-up leaves the policy running with StopCharging pending |
| LentResult.StopLent | firmware/deployment/Application.cpp:198-217 | From any loop about to end that teardown: the teardown succeeds, a port request is accepted before anybody reports it, the port fails, and the policy is told that StopCharging failed |
| Application.Loop.ServiceBoard | firmware/deployment/Application.cpp:363-363 | One hardware stage; during shutdown it only shrinks the driven set |
| Application.Loop.CleanUp | firmware/deployment/Application.cpp:364-386 | After charging is down, and only once main was lost in the wait, the two unbacked ports are switched off one after the other; until then nothing is started; step by step exactly so, and the charger is not expected on once it was taken down |
| Application.Loop.Spared | firmware/deployment/Application.cpp:364-386 | While main was not lost a shutdown that was taken up leaves the external registers exactly as it found them, as with a reboot on uninterrupted main |
| Application.Loop.MainPresent | firmware/deployment/Application.cpp:55-58 | Main counts only with a fresh valid internal reading, the mux on main and an input good |
| Application.Loop.Observe | firmware/deployment/Application.cpp:330-352 | The policy is told exactly what the snapshot, the budget and the charging controls show, each as of the moment it was looked at; the controls must read as charging from the first sample after CE was enabled |
| Application.Loop.Iterate | firmware/deployment/Application.cpp:318-386 | The loop of a shutdown's first tick takes it up or finds it lapsed, and from the take-up on the driven set only shrinks; a lapsed shutdown goes on with its operation, whose raising stage raises or fails; GPIO42 is lowered only by the release, after which nothing is touched; every loop ticks the policy exactly once, on the poll, what the host said and the supply readings of that loop, and otherwise only reports results to it, successes only as the registers bear them out; a port operation is started only by EnableJetson or by the clean-up after a loss; on a benign bus the whole loop is one relation of the scenes before and after it |
| Application.Loop.KeepAlive | firmware/deployment/Application.cpp:391-391 | A ping is sent exactly when the Jetson is enabled, no shutdown was announced and 2 s have passed since the last |
| Application.Loop.RequestReboot | firmware/deployment/Application.cpp:267-268 | A reboot request starts one shutdown and is refused during one |
| Application.Loop.RequestPort | firmware/deployment/Application.cpp:269-282 | A port request is accepted iff the board is running, idle and monitored with no other request waiting, main present at most 350 ms ago and, to enable, a budget for the one good input; the answer is the first check that fails, and nothing else changes |
| Application.Loop.RunStands | firmware/deployment/Application.cpp:232-248 | In every run: the driven set has only shrunk since shutdown began unless its first tick came 5 to 60 s late to an operation that could still raise an enable; while no loss of main was heard in the wait and the first tick was not late, the external registers are as they were when it began; GPIO42 is released no earlier than 60000 ms after it began and, with loops at most g apart, before 60750 + 4g ms, and once a loop ended 60750 + 3g ms after it began the release has happened |
| LoopLaws.ChargingWatched | firmware/deployment/Application.cpp:330-353 | A loop that finds the policy charging, main not lost and no result to take, leaves it charging iff the reading in it shows internal status at most 350 ms old, boost and charger power-good, the thermistor within 1300 to 2350 mV, VCAP under 21.0 V, and once the charger is expected on the budget of the one good input and charging controls in a sample no older than the enable, and initial charging and boost are in time; otherwise charging has ended and StopCharging is ordered in that loop |
| LoopLaws.LossActedOn | firmware/deployment/Application.cpp:331-353 | After settling a loop begins the shutdown for main loss iff a poll at most 350 ms old shows the mux off main, or a read expander and no live main behind it; whatever was pending, the request to the Jetson is ordered in it |
| LoopLaws.RepliesNoted | firmware/deployment/Application.cpp:351-353 | In the wait a loop takes note of the acknowledgement, the final ready and the pong it was told of, and power is cut at 60 s and not before, whatever the host said |
| LoopLaws.SaidIsNoted | firmware/deployment/Application.cpp:263-266 | What the host's accepted messages said before a round of the wait the policy knows after it, each under its own name |
| LoopLaws.PortGranted | firmware/deployment/Application.cpp:269-282 | A port request is granted iff the board is running, idle, monitored and without an open request, main is selected and good in a reading at most 350 ms old and, to enable, exactly one input is good and has its budget |
| Requests.Server.Respond | firmware/deployment/Application.cpp:72-74 | One response is queued; with room for a reply it is never dropped |
| Requests.ShutdownDeaf | firmware/deployment/Application.cpp:266-269 | During a shutdown no line from the host changes the policy, the ports or the operation under way, and no mutation but a remembered one is answered ok |
| Requests.OneEffect | firmware/deployment/Application.cpp:251-286 | One line at most enters shutdown or starts one port change on an idle running board, and then it was answered ok and remembered |
| Requests.Server.TakePong | firmware/deployment/Application.cpp:263-265 | A pong is accepted iff it carries the id of the last ping, sent less than 10 s ago |
| Requests.Server.Execute | firmware/deployment/Application.cpp:259-283 | The verdict of every request is the first check that fails, as of the moments the clock was read, and only a positive one has an effect: its own; the laws below say code by code when and what |
| Requests.CodesExact | firmware/deployment/Application.cpp:259-283 | Code by code: a port request is RESERVED_PORT iff it names vbus_ss outside a shutdown, INVALID_PORT iff it names no output, BUSY iff the running board is not idle, ACCEPTED iff it names vbus, 5v_vbus or 5v_ss on an idle running monitored board with main and, to enable, a budget; likewise every other code of every command |
| Requests.AcceptedActs | firmware/deployment/Application.cpp:259-283 | A request acts exactly if it is accepted, and then does its own: the output it names, and no other, is being switched as asked |
| Requests.EffectsExact | firmware/deployment/Application.cpp:251-286 | A line that changes anything was a request of the present boot, accepted afresh, and changed what that request is for; VBUS_SS is never moved by a request |
| Requests.RetainedAnswered | firmware/deployment/Application.cpp:253-258 | A mutation under a retained id does nothing: the same request gets its first answer again, and a near miss of it ID_CONFLICT |
| Requests.Server.Resolve | firmware/deployment/Application.cpp:253-285 | A mutation whose id is among the last 16 starts nothing and gets the remembered reply, or ID_CONFLICT; any other is executed and remembered with its reply |
| Requests.Server.Handle | firmware/deployment/Application.cpp:251-286 | Every request gets exactly one response, and what it changed is on record beside it; the output is offered one frame, and telemetry for a status request |
| Requests.Server.Receive | firmware/deployment/Application.cpp:287-298 | At most 128 bytes, stopping early only without room for a reply: the nonblank lines they complete are answered one after the other, each by what it says, from the setting the previous one left; each gets exactly one response, queued |
| Requests.PrintedAsked | firmware/deployment/Application.cpp:287-297 | A request printed by the host and sent with a line feed is one line on the board, asking exactly that request |
| Requests.Server.Round | firmware/deployment/Application.cpp:318-400 | One round: the output is serviced, a new connection starts a fresh line, the loop runs, a due ping goes out, and then the host is heard; the bytes read complete exactly the lines answered, what the host said reaches the next tick once, and after the release only output is serviced; the output is offered the loop's frames, one answer a line, and telemetry where due |
| Requests.AnyRun | firmware/deployment/Application.cpp:301-400 | Whole runs, from any retained registers, for any polls, connections, host bytes, bus outcomes and delays: every round ticks the policy once on its own poll and on what the host said before, and answers the lines it completes; on a benign bus each round is one loop at one instant, a pause after the last; the writes are sequenced, from the moment a shutdown begins the driven set only shrinks unless its first tick is 5 to 60 s late and an enable was under way, while no loss of main is heard a shutdown moves no output until power is cut, the Jetson's output is never switched off by a port operation, and the backup is released in time, neither early nor never |
| Requests.JetsonKept | firmware/deployment/Application.cpp:269-274 | In every run a port operation for VBUS_SS only enables it, and only the policy's EnableJetson starts one |
| Requests.ShedByLoss | firmware/deployment/Application.cpp:364-386 | In every run unbacked outputs become due to go iff some round heard in a shutdown's wait that main is lost |
| Requests.OutputsSpared | firmware/deployment/Application.cpp:364-386 | Through all rounds of a wait that hear of no loss, a shutdown that was taken up leaves every output as it is |
| Requests.OpenUntilReported | firmware/deployment/Application.cpp:75-81 | In every run an accepted port request stays open, unchanged, until one report on it, and that report is true of the registers |
| Requests.ReportFounded | firmware/deployment/Application.cpp:171-175 | A round reports at most once, on the request that was open before it, and a success only as the registers bear it out |
| LateReboot.LateLoop | firmware/deployment/Application.cpp:353-363 | A shutdown whose first tick is 5 s late lets a VBUS enable go on: the loop's stage raises it |
| LateReboot.RaisedInShutdown | firmware/deployment/Application.cpp:318-400 | From any retained registers there is a run of the server that reaches Running, executes a port request and a reboot request sent by the host, ticks 5 s late, and in which the driven set grows in the shutdown |
| Grammar.FieldsByKey | firmware/deployment/Protocol.cpp:43-47 | With distinct keys the fields of a request do not depend on the order of its members |
| Protocol.SkipSpace | firmware/deployment/Protocol.cpp:7-7 | The cursor loop skips exactly the blanks |
| Protocol.ReadText | firmware/deployment/Protocol.cpp:8-18 | The cursor loop reads exactly the texts of printable characters that fit their buffer |
| Protocol.ReadNumber | firmware/deployment/Protocol.cpp:19-29 | The cursor loop reads exactly the canonical numbers, never past the terminator |
| Protocol.ReadFlag | firmware/deployment/Protocol.cpp:59-62 | The comparison reads true or false, stopping at the first difference |
| Protocol.ReadMember | firmware/deployment/Protocol.cpp:38-63 | One member: key, colon, value, with a repeated or unknown key refused before its value is read |
| Protocol.ReadMembers | firmware/deployment/Protocol.cpp:37-66 | The member loop computes exactly what the grammar's reader does |
| Protocol.ParseLine | firmware/deployment/Protocol.cpp:31-84 | The parser accepts a line as r iff the line says r, reading no character past the terminating zero |
| Protocol.NumberExact | firmware/deployment/Protocol.cpp:19-29 | A run of digits is a number iff it has no leading zero and is at most 2^32 - 1 |
| Protocol.MemberComplete | firmware/deployment/Protocol.cpp:38-63 | Every layout of a member is read back |
| Protocol.MemberSound | firmware/deployment/Protocol.cpp:38-63 | Whatever reads as a member is the layout of one |
| Protocol.MembersComplete | firmware/deployment/Protocol.cpp:37-66 | Every list of distinct members is read back, whatever its white space |
| Protocol.MembersSound | firmware/deployment/Protocol.cpp:37-66 | Whatever reads as a list is a list of distinct proper members |
| Protocol.ParseExact | firmware/deployment/Protocol.cpp:31-84 | Parse(line) is r iff the line is at most 512 characters and lays out an object that denotes r |
| Protocol.LaidOutRefusals | firmware/deployment/Protocol.cpp:67-82 | Exactly when a laid-out object is answered BAD_REQUEST, UNSUPPORTED_VERSION or UNKNOWN_COMMAND, in that order of checks |
| Protocol.StrayLinesRefused | firmware/deployment/Protocol.cpp:31-67 | A line that lays out no object is BAD_JSON or BAD_REQUEST |
| Protocol.RearrangedSaysSame | firmware/deployment/Protocol.cpp:37-66 | Order of members and white space never change the answer |
| Printer.PrintFits | firmware/deployment/jetson/pdb_client.py:180-182 | Every request the host can make fits 512 bytes |
| Printer.PrintPlain | firmware/deployment/jetson/pdb_client.py:180-183 | A printed request holds no control character, so it travels as one frame |
| Printer.PrintParses | firmware/deployment/jetson/pdb_client.py:157-184 | Printing and parsing are inverse: every request the host can make parses back to itself |
| Printer.VariantParses | firmware/deployment/jetson/pdb_client.py:157-184 | So does every permutation and white-space variant of its line up to 512 characters |
| Printer.PrintInjective | firmware/deployment/jetson/pdb_client.py:157-184 | Different requests print different lines |
| Replay.StepInjective | firmware/deployment/Protocol.cpp:87-87 | One FNV-1a step is injective in the state and in the byte |
| Replay.OneByteApart | firmware/deployment/Protocol.cpp:85-92 | Byte strings that differ in exactly one place never collide |
| Replay.ComputeFingerprint | firmware/deployment/Protocol.cpp:85-92 | The hash loops compute the fold over the 53 hashed bytes in order |
| Replay.BytesTellAll | firmware/deployment/Protocol.cpp:85-92 | The hashed bytes of two parsed requests are the same only if the requests are: no field is left out |
| Replay.PortDetected | firmware/deployment/Protocol.cpp:90-90 | Requests that differ in one character of the port have different fingerprints |
| Replay.BootIdDetected | firmware/deployment/Protocol.cpp:89-89 | So have requests that differ in one character of the boot id |
| Replay.NumbersDetected | firmware/deployment/Protocol.cpp:87-88 | And requests that differ in one byte of one of their numbers |
| Replay.CommandDetected | firmware/deployment/Protocol.cpp:87-88 | And requests that differ in their command |
| Replay.EnabledDetected | firmware/deployment/Protocol.cpp:88-88 | Two requests that differ only in enabled have different fingerprints |
| Replay.NearMissConflicts | firmware/deployment/Protocol.cpp:103-108 | A reused id whose request differs in one character of a text, one byte of a number, the command or the flag is a conflict, never answered from the cache |
| Replay.RetainedFor16 | firmware/deployment/Protocol.cpp:109-111 | A remembered id stays retained until 16 others have followed |
| Replay.ReplayCache.Lookup | firmware/deployment/Protocol.cpp:103-108 | Finds an id iff it is among the last min(n,16) remembered, across the wrap of the index; Same iff the fingerprint agrees |
| Replay.ReplayCache.Remember | firmware/deployment/Protocol.cpp:109-111 | Overwrites exactly the oldest entry and keeps the retained ids distinct |
| Framing.SplitExact | firmware/deployment/Protocol.cpp:93-102 | Splitting at line feeds loses nothing |
| Framing.SplitUnique | firmware/deployment/Protocol.cpp:93-102 | Splitting undoes joining: it is the only division into lines free of line feeds |
| Framing.Framer.Push | firmware/deployment/Protocol.cpp:93-102 | A frame is reported exactly at a line feed: Invalid iff the segment holds a zero byte, else TooLong iff over 512, else the segment itself |
| Framing.PushAll | firmware/deployment/Protocol.cpp:93-102 | Pushing any byte stream reports exactly its classified lines |
| Framing.JsonLines.Feed | firmware/deployment/jetson/pdb_client.py:62-90 | Delivers exactly the lines of 1 to 8192 bytes that the data completes, with the buffer within 8192 bytes |
| Framing.FeedChunks | firmware/deployment/jetson/pdb_client.py:62-90 | However a stream is cut into chunks, the same lines are delivered |
| JsonText.JsonOutput.Add | firmware/deployment/JsonOutput.h:11-18 | A text is appended whole or the message fails as a whole, within 8191 bytes |
| JsonText.JsonOutput.AddQuoted | firmware/deployment/JsonOutput.h:19-27 | Appends exactly the JSON string literal of the text |
| JsonText.QuotedReads | firmware/deployment/JsonOutput.h:19-27 | A JSON reader gets the quoted text back, for every byte string, and finds the literal's end where it was put |
| JsonText.QuotedOneLine | firmware/deployment/JsonOutput.h:19-27 | Quoted text contains no line feed, so it never ends a frame early |
| UsbOutput.UsbOutput.Enqueue | firmware/deployment/JsonOutput.h:42-49 | A frame is queued whole or dropped whole and counted, lost telemetry on its own as well; telemetry may fill two of six slots; with room for a reply a reply is taken |
| UsbOutput.UsbOutput.Service | firmware/deployment/JsonOutput.h:50-68 | For any partial writes the bytes of a session are one line feed, whole frames in order and a prefix of the next; a call sends exactly the next bytes of what it may offer, the line feed first and at most 256, that the port takes; attempts = completed + queued + dropped |
| UsbOutput.Drain | firmware/deployment/JsonOutput.h:50-68 | A connected port that has room and takes something in every call gets everything accepted in the session, in order, within one call a byte, and nothing is lost |
| UsbOutput.UsbOutput.Disconnect | firmware/deployment/JsonOutput.h:51-55 | A lost connection drops what is queued and starts the next session afresh |
| UsbOutput.FinishMoves | firmware/deployment/JsonOutput.h:66-67 | Retiring a sent frame changes neither the bytes sent nor the order of the frames |
| Journal.CheckValid | firmware/board_control_test/UsbRecoveryDiagnostics.cpp:38-50 | A reader accepts a record iff magic, version, size, checksum, flags and every recorded kind are right |
| Journal.CoveredTellsAll | firmware/board_control_test/UsbRecoveryDiagnostics.cpp:33-36 | The words the checksum covers tell version, size, generation and every field of the snapshot |
| Journal.DamageFound | firmware/board_control_test/UsbRecoveryDiagnostics.cpp:33-52 | One changed byte anywhere in version, size, generation or snapshot makes a valid record invalid |
| Journal.TornIgnored | firmware/board_control_test/UsbRecoveryDiagnostics.cpp:59-70 | While a commit is in progress a reader takes the previous snapshot |
| Journal.CommittedWins | firmware/board_control_test/UsbRecoveryDiagnostics.cpp:59-70 | After its last store the reader takes the new one; generations of two valid slots are consecutive modulo 2^32 |
| Journal.RingReads | firmware/board_control_test/UsbRecoveryDiagnostics.cpp:52-56 | The ring holds the last min(n,24) events, oldest first |
| Journal.LiveIsValid | firmware/board_control_test/UsbRecoveryDiagnostics.cpp:38-56 | Whatever is recorded, a commit writes a record that readers accept |
| Journal.Recorder.Append | firmware/board_control_test/UsbRecoveryDiagnostics.cpp:52-56 | Appends one event to the ring |
| Journal.Recorder.Commit | firmware/board_control_test/UsbRecoveryDiagnostics.cpp:59-70 | A reset after any store leaves the previous or the new snapshot; the newest valid slot is never touched |
| Journal.Recorder.Begin | firmware/board_control_test/UsbRecoveryDiagnostics.cpp:85-123 | A warm start recovers what the newest valid slot holds, from any memory, and goes on from its generation; other resets trust nothing; the new session starts uncounted |
| Journal.Recorder.ObserveConnection | firmware/board_control_test/UsbRecoveryDiagnostics.cpp:181-194 | Every look is counted, only a change of the connection is recorded and committed, and nothing else of the session changes |
| Journal.Recorder.ImportPrior | firmware/board_control_test/UsbRecoveryDiagnostics.cpp:232-242 | A saved record never replaces one the journal retained |
| Journal.CrashAndRestart | firmware/board_control_test/UsbRecoveryDiagnostics.cpp:59-123 | A reset at any store of commit n+1 followed by a warm start recovers snapshot n or n+1, whole |
| SupercapTransfer.Transfer.BeginShutdown | firmware/board_control_test/SupercapTransfer.cpp:80-94 | CE is ordered off first, by the emergency path if need be, and the ports are switched off; the backup is kept |
| SupercapTransfer.Transfer.FinishShutdown | firmware/board_control_test/SupercapTransfer.cpp:96-113 | Boost goes only after CE was verified off for 100 ms; a shutdown is over only when ports, buck and boost are all off |
| SupercapTransfer.Transfer.Fail | firmware/board_control_test/SupercapTransfer.cpp:115-122 | A fault latches, keeps supervising and begins a shutdown unless one is pending |
| SupercapTransfer.Transfer.RequestCutoff | firmware/board_control_test/SupercapTransfer.cpp:57-68 | A main-timeout cutoff is never early |
| SupercapTransfer.Transfer.OpenEpisode | firmware/board_control_test/SupercapTransfer.cpp:219-231 | The first invalid sample opens an episode, fixes its deadline and takes charging down |
| SupercapTransfer.Transfer.FollowEpisode | firmware/board_control_test/SupercapTransfer.cpp:232-247 | An episode ends exactly when a valid main source is read |
| SupercapTransfer.Transfer.CheckSample | firmware/board_control_test/SupercapTransfer.cpp:255-267 | A sample ends in a low-voltage cutoff iff main is invalid, the backup armed and the bank at 7.0 V or less, and otherwise in a fault iff its voltage is unknown or 21.0 V or more, the backed converter is down, or an armed backup is not up; else it goes on |
| SupercapTransfer.Transfer.CheckCharger | firmware/board_control_test/SupercapTransfer.cpp:268-284 | While charging a sample faults iff supply, controls or thermistor are wrong or STAT has been low for 100 ms, or the backup, armed at 10.0 V on the way up and nowhere else, is refused |
| SupercapTransfer.LevelledTracks | firmware/board_control_test/SupercapTransfer.cpp:290-302 | The plateau tracker's extremes and start describe exactly the readings since it started, all between 20 and 20.95 V and within 0.15 V of each other |
| SupercapTransfer.Transfer.FollowPlateau | firmware/board_control_test/SupercapTransfer.cpp:285-311 | Full is reached only armed, with backup power-good, after at least 30 s in which every tracked reading lay between 20 and 20.95 V and within 0.15 V of every other |
| SupercapTransfer.Transfer.Service | firmware/board_control_test/SupercapTransfer.cpp:191-314 | A call 20000 ms or more after the first invalid sample either reads valid main or ends in Cutoff, which is absorbing; nothing is energised and no backup released; a call reads a status when one is due and does exactly what that reading demands: an episode, a cutoff, a fault, the plateau, the way back |
| SupercapTransfer.Transfer.Start | firmware/board_control_test/SupercapTransfer.cpp:124-165 | CE and boost are enabled only here, on a validated budget and one main source, CE last; a start that does not get through leaves an episode in progress and its deadline alone |
| SupercapTransfer.Transfer.Stop | firmware/board_control_test/SupercapTransfer.cpp:167-189 | The backup is released only here and only on a valid main source |
| SupercapTransfer.AnyRun | firmware/board_control_test/SupercapTransfer.cpp:124-314 | Any sequence of starts, service calls, stops and pauses, with the history of what each did to the episode, the mode and the calls to the board |
| SupercapTransfer.CutoffAbsorbs | firmware/board_control_test/SupercapTransfer.cpp:124-197 | Once in Cutoff no later command leaves it, changes its reason or calls the board |
| SupercapTransfer.EpisodeOverdue | firmware/board_control_test/SupercapTransfer.cpp:191-255 | Whatever came between, a service call 20 s or more after an episode's first invalid sample reads a valid main source or ends in Cutoff |
| SupercapTransfer.CutoffNotEarly | firmware/board_control_test/SupercapTransfer.cpp:203-255 | In a run a cutoff for the loss of main comes no earlier than 20 s after that first sample |
| SupercapTransfer.LowCutoffFounded | firmware/board_control_test/SupercapTransfer.cpp:258-261 | In a run a low-voltage cutoff comes only of a reading without a valid main source, armed, at 7.0 V or less |
| SupercapTransfer.ArmedAboveTen | firmware/board_control_test/SupercapTransfer.cpp:278-283 | In a run the backup is switched on only at a reading of 10.0 V or more while charging |
| SupercapTransfer.EnergisedOnlyByStart | firmware/board_control_test/SupercapTransfer.cpp:124-189 | Over a whole run every call that raises CE or boost was made by a start with a validated budget, and every release of the backup by a stop on a valid main source |
| Interrupts.NeverForgotten | firmware/board_control_test/ExpanderInterrupts.cpp:11-62 | However edges, handler and thread interleave, attaching included, a line that is low once the start has looked at it is flagged or about to be |
| Interrupts.EdgesReal | firmware/board_control_test/ExpanderInterrupts.cpp:30-62 | Attaching fabricates no edge: every counted one, and every request still latched, stands for a level change of its own |
| Interrupts.ClearedOnlyWhenServed | firmware/board_control_test/ExpanderInterrupts.cpp:85-107 | A flag is lowered only with the line high, after a successful input read that followed a snapshot containing every counted falling edge |
| PdbClient.LawfulStarts | firmware/deployment/jetson/pdb_client.py:287-301 | A poweroff backed by the chain of evidence keeps the log lawful |
| PdbClient.Client.Send | firmware/deployment/jetson/pdb_client.py:157-184 | Ids cycle through 1 to 2^32 - 1 and every line sent parses back on the board |
| PdbClient.Client.Boot | firmware/deployment/jetson/pdb_client.py:208-215 | A new boot id forgets the attempt |
| PdbClient.Client.Shutdown | firmware/deployment/jetson/pdb_client.py:248-285 | One attempt per boot and shutdown id, opened with exactly the time allowed and acknowledged once; every repeat is on record and can only bring its deadline forward |
| PdbClient.Client.StartPoweroff | firmware/deployment/jetson/pdb_client.py:287-301 | A poweroff starts only unfailed, once, less than 1 s after the ready message and before every deadline announced for the attempt; and it does start whenever host shutdown is configured and nothing of that stands in the way |
| PdbClient.Client.Respond | firmware/deployment/jetson/pdb_client.py:216-224 | Only the OK for exactly the ready id leads there, and it does unless the attempt failed, started or ran out of time; any other answer to it fails the attempt |
| PdbClient.Client.Receive | firmware/deployment/jetson/pdb_client.py:192-246 | A message outside its envelope changes nothing; a ping is answered with its id; a valid announcement opens the attempt of its boot or brings its deadline forward; the awaited OK starts the poweroff; whatever is logged or sent is what this message can cause |
| PdbClient.Client.CheckTimeouts | firmware/deployment/jetson/pdb_client.py:303-316 | An attempt fails exactly when its deadline, its clean-up time or its answer time has passed |
| PdbClient.Client.TakeResult | firmware/deployment/jetson/pdb_client.py:317-334 | A result counts only for the present, unfailed attempt; a clean-up that returned True is followed at once by the ready message |
| PdbClient.Client.Poll | firmware/deployment/jetson/pdb_client.py:303-334 | Over timeouts and any results in any order an attempt has failed exactly if it had, a limit had passed or one of its workers failed, and the ready message goes out exactly for a clean-up of it that was done before any failure |
| PdbClient.AnyRun | firmware/deployment/jetson/pdb_client.py:192-334 | For every interleaving of messages, polls and worker results: log and requests are exactly what the inputs caused one by one, every poweroff is justified within one boot, cleanup reported True, ready sent, OK for its id within 1 s and before the latest deadline, and none is repeated |

## Left out

- ADC averaging, current estimates, telemetry text, LED, edge counters and name tables: plain mappings.
- BoardHardware.BoardHardware.Poll: the reads of a poll are not transfers of the model; it delivers an arbitrary snapshot.
- BoardHardware.BoardHardware.CurrentMain: the second look at the mux pin is a nondeterministic level, returned beside the result.
- BoardHardware.BoardHardware.BackedSourceOk: GPIO42 may read back wrongly; on a benign bus it reads as driven.
- The error texts and the order in which they are overwritten.
- PD negotiation itself: its answers are inputs (`Delivery` in every loop, the set `offered` for the requests of a round); the paths that depend on them are kept.
- Application.Loop.PortResult: the event frame itself; the model records what it says, and whether it is true.
- Events, telemetry and shutdown notices sent by the loop: any number of such frames is queued in a round, whatever they say.
- esp_restart after the release.
- Requests.Server.Answer: the id echoed with a refused line (whatever was parsed before the error) is arbitrary.
- Protocol.ParseLine: the null pointer case; a line is a zero-terminated string.
- Floating-point rounding: voltages are integers in 0.1 mV, with an explicit not-finite reading; host times are reals.
- JSON decoding of device messages on the host: delivered lines, and messages with an envelope verdict.
- The formatting of numbers in outgoing messages.
- Framing.Framer.Push: the characters left in the buffer behind the terminating zero.
- Journal: NVS export and dumping; the statistics other than those a validity check reads.
- SupercapTransfer: sample counters, the longest gap and the error text; readings of the control registers are one verdict.
- Interrupts: the time stamps, the thread's second snapshot and detaching; edges and handlers may interleave with the start's two looks, which is more than its lock allows.
- The bench firmware's blocking board driver, PD diagnostics, characterisation and capture scripts, the host's command line.
