# Operations model

A Dafny model of the operations layer: the scripts that plan irreversible on-chain wiring, print it for signers, and resume
after partial execution. Where a script's safety rests on what a contract accepts, the contract's own revert rules (under
`contracts/`) are modelled too. Nothing here talks to a chain; every statement is about all inputs, all runs or all reachable
states of the model. `dafny verify dfyconfig.toml` verifies the whole project.

## How it is built

**Wiring rollout.** `chain.dfy` is the chain as a store of slots: 22 kinds of owner call, what each one writes (`SlotOf`,
`Written`) and when the contract takes it (`Accepts`). `planning.dfy` is what all planners share: a plan is the list of
candidate calls whose guard is still open (`Missing`), and simulation soundness, resumption, convergence and coverage are
proved once for every such plan; `sittings.dfy` adds the planner's refusals over several sittings. `gen7_bnb.dfy`,
`bnb_rollout.dfy` and `bnb_safety.dfy` are batches B and H on BNB, and `bnb_whole.dfy` runs B, the handover and H from the
deployed state; `treasury.dfy` and `robinhood_rollout.dfy` are batches A, A7, B, B7 and H7 on Robinhood, and
`robinhood_whole.dfy` runs A7 and then B7 from what the constructors leave; `generations.dfy` says what a live generation
depends on. `routes.dfy` and `runway.dfy` are the route planners and the runway of weekly authorizations. The imperative
planners are methods that push call after call; each is proved equal to its plan.

**Safe batches.** `words.dfy` and `abi.dfy` are the argument encoding of the Solidity Contract ABI Specification with a
decoder; `numerals.dfy` and `json.dfy` are JSON texts (section 7 of RFC 8259 for strings); `coders.dfy` turns JavaScript
values into typed ones; `signatures.dfy` spells out and reads type texts; `safe_batch.dfy` prints batches and reads them back,
and `documents.dfy` and `batch_file.dfy` do so for the whole text of the file, with its objects and line breaks.

**Calendar.** `calendar.dfy` is day counting per section 21.4.1 of ECMA-262, in closed form and counted day by day;
`payout_vaults.dfy` is the windows of the payout vaults, their ids and the Safe batch, and `payout_batch.dfy` what the vault
contracts make of that batch.

**The rest.** `import_fee_vault.dfy` is the deployment that can be cut off after any effect, `registry.dfy` the factory
registry over replace, stage and activate, `registry_files.dfy` the files those scripts read and write, `linking.dfy` library
linking, `harvest.dfy` the chunked event scan and the 80/20 accounting, `sums.dfy`, `war_pool.dfy` and `canary.dfy` the war
pools, who gets paid, and the script that drives one. `common.dfy` holds what all modules share.

## What turned out otherwise than the comments promise

The code is modelled as it is. Where a promise fails, the exact condition is proved.

- Batch B on BNB may stop anywhere and be planned again, if and only if every recorded owner action stays settled: an executed
  one must refuse its repetition, and a never planned `setPrimaryLpLocker` must not be the one the executed authorization
  enabled. Else the next plan refuses (`BnbRollout.ResumeB`, `Chain.RefusalEnds`). Over any sittings that decides whether the
  rollout gets through at all (`BnbWhole.BothGenerationsServed`, `RobinhoodWhole.RolloutServes`).
- The vault guards of batch B ask for zero, so a vault slot holding something else is skipped silently and stays wrong
  (`BnbSafety.BatchBWires`); the A7 filter compares with the planned value, and the simulation refuses instead
  (`RobinhoodRollout.A7SimulatesUnlessForeign`).
- The BNB replay rule skips `setPrimaryLpLocker` whenever any locker is authorized in the batch, before or after it. That is
  exact on batch B (`BnbRollout.LooseRuleExactForB`). In general a batch it lets through executes if and only if the skipped
  calls that do not follow their own authorization are accepted (`BnbRollout.LooseRuleSoundExactly`); there are batches where
  they are not (`BnbRollout.LooseRuleUnsound`).
- A second route plan is empty only if the first could execute, and the adapters let a stored route only be tightened. The
  stock adapter also refuses tokens with more than 18 decimals, and both adapters read their own oracles, the native one among
  them, when a route is enabled; the scripts look at neither (`Routes.PlanExecutable`, `Routes.LooseningNeverConverges`).
- The runway never authorizes a revoked week again (`Runway.NeverAuthorizedAfter`); the gen-7 pot planner lacks that rule, and
  plans a frozen week if and only if it was revoked: neither authorized nor consumed nor created
  (`Runway.PotPlannerReauthorizesRevoked`, `Runway.PlannersAgreeUnlessRevoked`).
- A batch file the printer wrote is refused by its own check when two parameters share a name and got different values, when a
  true bool was given as something other than `true`, when a bool inside a tuple was given as the BigInt zero, or when bytes
  were given as a typed array (`SafeBatch.BuiltAccepted`, `SafeBatch.BuiltAcceptedDistinct`).
- `periodWindows` takes the years 0 to 99 for 1900 to 1999, because `Date.UTC` does (`PayoutVaults.FirstWindowContains`).
- "A re-run never deploys a second vault" holds except for a run cut off between the deployment and the first write of the
  record, which orphans one vault each time (`ImportFeeVault.VaultsDeployed`).
- Activating a staged factory loses whatever factory was replaced in after the staging (`Registry.StaleExactlyWhenReplaced`),
  and staging twice forgets the first staged factory (`Registry.StagingAgainForgets`). A run not pointed at the file in use
  loses what the file it reads does not know (`RegistryFiles.LostExactly`, `RegistryFiles.ReplacedTwiceIsLost`).
- The harvest scan stops at the first chunk that holds an event, so it covers the lookback if and only if all events lie in
  one chunk (`Harvest.FoundWholeExactly`). `creatorAccountingExact` compares everything ever credited with 80% of what the
  scan found: it holds if and only if the credits before the scan make up for the units rounding lost in it
  (`Harvest.AccountingExactly`).
- The arena canary stops at an empty bucket when run with fewer than 3 units of stake, or with fewer than 10 of both stake and
  boost (`Canary.BucketsFilledExactly`). With two receivers apart from the playing wallets it also counts a failure whenever a
  part of the protocol's share goes to an operator who is not its receiver, as with an operator set and its cap not reached
  (`Canary.ReceivedOffWallets`, `Canary.FilledOperatorFails`); `Canary.ReceivedExactly` is the condition for any receivers,
  and one receiver for both shares fails the checks unless they are equal and the operator takes all of the protocol's
  (`Canary.SharedReceiverPasses`).

## Model

| member | source | states |
|---|---|---|
| Chain.AcceptStable | contracts/TreasuryRouterV4.sol:243-363 | no planned call takes back what makes a call on another slot acceptable |
| Chain.AcceptNotGained | contracts/TreasuryRouterV4.sol:326-363 | nor does one make a refused call acceptable, except that authorizing a locker lets it become primary |
| Chain.RepeatRefused | contracts/CreatorRewardsVaultV2.sol:237-297 | of the accepted calls exactly the set-once setters refuse their own repetition |
| Chain.OnceRefusedForever | contracts/CreatorRewardsVaultV2.sol:237-252 | a refused set-once call stays refused after any call |
| Chain.RefusalEnds | contracts/TreasuryRouterV4.sol:326-363 | a refused call is taken after another accepted call exactly when that call authorizes the locker it makes primary |
| Chain.RouteFitsStable | contracts/integrations/BnbQuoteGraduationAdapter.sol:229-308 | writing one token's route changes no other route's acceptability |
| Planning.SimulationSound | scripts/deploy-robinhood-gen7-generation.ts:469-475 | if every replayed call succeeds alone, the whole batch with its skipped dependent calls executes in order without a revert |
| Planning.SimulationComplete | scripts/deploy-robinhood-gen7-generation.ts:469-475 | a batch that executes in order passes the replay, so the replay is exact on batches writing each slot once |
| Planning.Resume | scripts/deploy-bnb-gen7-generation.ts:442-448 | the first k calls of a simulated plan execute, the rest still passes, and planning again gives exactly the rest |
| Planning.InterruptionInvisible | scripts/deploy-bnb-gen7-generation.ts:442-448 | over any sequence of interrupted runs the executed calls are the first plan's, once each and in order |
| Planning.Converges | scripts/deploy-bnb-gen7-generation.ts:519-521 | runs that get far enough leave nothing missing and every guard closed |
| Planning.ConvergedHolds | scripts/deploy-bnb-gen7-generation.ts:369-390 | after the whole plan a candidate's slot holds the recorded value exactly when no foreign value was there before |
| Planning.CoverageMeaning | scripts/deploy-bnb-gen7-generation.ts:391-398 | the coverage loop passes exactly when every recorded action is in the batch or refused on chain |
| Planning.VerdictFor | scripts/deploy-bnb-gen7-generation.ts:391-398 | after k executed calls a recorded action is still covered if and only if it stays settled: executed, it refuses its repetition; never planned, no executed authorization frees it |
| Planning.RefusalEndsThroughout | scripts/deploy-bnb-gen7-generation.ts:391-398 | over a whole executed batch a refused action becomes acceptable exactly when the batch authorized its locker |
| Planning.BatchFrame | scripts/deploy-bnb-gen7-generation.ts:442-448 | slots no call writes keep their value however far the batch got |
| Planning.RunsFrame | scripts/deploy-bnb-gen7-generation.ts:442-448 | the same over any number of interrupted runs |
| Planning.CheckCoverage | scripts/deploy-bnb-gen7-generation.ts:392-398 | the loop finds the first recorded action that is neither in the batch nor refused |
| Planning.EmitMissing | scripts/lib/gen7AirdropPot.ts:210-233 | a planner's loop emits exactly the candidates the chain lacks |
| Planning.SimulateBatch | scripts/deploy-robinhood-gen7-generation.ts:469-475 | reports exactly the refused replayed calls, and none exactly when the batch is simulated |
| Planning.SendInOrder | scripts/deploy-bnb-gen7-generation.ts:442-448 | sends in order and stops at a revert or where the process dies; the chain is the executed prefix |
| Sittings.SittingsAreRuns | scripts/deploy-bnb-gen7-generation.ts:515-521 | sittings of a planner that may refuse get through if and only if its plan is still settled when the last one starts, and then are the runs of the bare plan; else a prefix of it was executed |
| Gen7Bnb.PlanBatchB | scripts/deploy-bnb-gen7-generation.ts:361-403 | the pushes and refusals of batch B, in the script's order, give the missing candidates |
| Gen7Bnb.PlanBindings | scripts/deploy-bnb-gen7-generation.ts:380-390 | locker, pin, recorder and adapter pushes, with their three refusals |
| Gen7Bnb.PlanBatchH | scripts/deploy-bnb-gen7-generation.ts:406-415 | batch H is what is missing of live, open, and gen-6 closed |
| Gen7Bnb.Simulate | scripts/deploy-bnb-gen7-generation.ts:418-422 | lists exactly the refused calls among those the loose rule replays, in their order |
| Gen7Bnb.BindOnTestnet | scripts/deploy-bnb-gen7-generation.ts:515-524 | plan, simulate, send with a possible stop, plan again: what the stage leaves and when it ends without error |
| Gen7Bnb.RefusedCallRefusesBatch | scripts/deploy-bnb-gen7-generation.ts:442-448 | when sending one by one stops at a refused call, the same calls as one Safe batch revert as a whole |
| BnbRollout.PlanIsMissing | scripts/deploy-bnb-gen7-generation.ts:361-403 | a batch B that is returned is the missing part of bindings and pot |
| BnbRollout.LooseRuleExactForB | scripts/deploy-bnb-gen7-generation.ts:418-422 | on batch B the loose rule skips exactly the dependent call |
| BnbRollout.LooseRuleSoundExactly | scripts/deploy-bnb-gen7-generation.ts:418-422 | a loosely simulated batch executes if and only if every skipped call that does not follow its own authorization is accepted |
| BnbRollout.LooseRuleUnsound | scripts/deploy-bnb-gen7-generation.ts:418-422 | whatever the owner, router and locker: primary before its authorization passes the loose replay and reverts on chain |
| BnbRollout.NothingForeignBoundKept | scripts/deploy-bnb-gen7-generation.ts:380-390 | executing planned calls never makes batch B's refusals fire |
| BnbRollout.ResumeB | scripts/deploy-bnb-gen7-generation.ts:361-403 | after k calls the next plan is the remaining suffix if and only if every recorded action stays settled; else it refuses |
| BnbRollout.ActionVerdict | scripts/deploy-bnb-gen7-generation.ts:391-398 | the coverage of a recorded action after k calls of batch B, for every recorded action |
| BnbSafety.DeployedSimulates | scripts/deploy-bnb-gen7-generation.ts:515-521 | a deployed generation's batch B passes its simulation however much of it is already on chain |
| BnbSafety.BatchBWires | scripts/deploy-bnb-gen7-generation.ts:369-390 | a recorded binding holds at the end if and only if its slot held nothing foreign |
| BnbSafety.PausedOperatorStays | scripts/deploy-bnb-gen7-generation.ts:375-376 | the operator guard ignores the paused flag, so a paused vault stays paused |
| BnbSafety.FinalReplan | scripts/deploy-bnb-gen7-generation.ts:517-521 | the final re-plan is empty if and only if every recorded action stays settled, and after the week turned it then lists exactly the new weeks |
| BnbSafety.BatchBStaysOff | scripts/deploy-bnb-gen7-generation.ts:6-19 | no candidate of B writes a slot gen-6 depends on, nor a create gate |
| BnbWhole.BatchBKeepsBothGates | scripts/deploy-bnb-gen7-generation.ts:339-341 | over any sittings of B, refused re-plans included, gen-6 is untouched and gen-7's gate stays as deployed |
| BnbWhole.BothGenerationsServed | scripts/deploy-bnb-gen7-generation.ts:6-19 | sittings that send all of B end without a refusal if and only if every recorded action is settled at the start of the last one; then both generations can trade and gen-7 can create |
| BnbWhole.BatchBPlanned | scripts/deploy-bnb-gen7-generation.ts:361-403 | a deployed generation bound to nothing foreign, with set-once actions on record, gets a batch B |
| BnbWhole.RolloutServes | scripts/deploy-bnb-gen7-generation.ts:6-19 | batch B, the handover and batch H, each interrupted at will: gen-6 still trades, gen-7 trades and can create, one of them is open throughout, and at the end exactly gen-7 is |
| BnbSafety.CreateGate | scripts/deploy-bnb-gen7-generation.ts:405-415 | every prefix of H leaves a factory open if gen-6 was; the whole leaves exactly gen-7 open and nothing to plan |
| BnbSafety.Gen6ClosesLast | scripts/deploy-bnb-gen7-generation.ts:411-413 | while anything of H is to do, gen-6's gate is untouched |
| BnbSafety.NoOpeningBeforeHandover | scripts/deploy-bnb-gen7-generation.ts:433-435 | before the handover H as one Safe batch reverts and changes nothing |
| Generations.RunsKeepGeneration | scripts/deploy-robinhood-gen7-generation.ts:233-239 | runs of a plan that stays off a generation leave all its slots as they were |
| Generations.UntouchedSameShape | contracts/TreasuryRouterV4.sol:408-432 | a generation with untouched slots trades and creates as before |
| Generations.TradeKept | contracts/TreasuryRouterV4.sol:408-432 | calls that write no trade slot leave every factory's trade readiness alone |
| Treasury.A7Listed | scripts/deploy-robinhood-gen7-generation.ts:233-239 | A7 is batch A without the pause and the community router, call by call |
| Treasury.TableMatchesGuards | scripts/deploy-robinhood-gen7-generation.ts:490-512 | the done table by function name decides each A7 call as its own slot does |
| Treasury.PlanBatchA7 | scripts/deploy-robinhood-gen7-generation.ts:490-512 | the filter leaves exactly what the chain lacks |
| Treasury.BatchBFromChain | scripts/deploy-evm-treasury-router-v4.ts:202-260 | the pushes and refusals of batch B from chain state |
| Treasury.BatchB7FromChain | scripts/deploy-robinhood-gen7-generation.ts:430-444 | B7 is B plus the stock implementation when unset |
| RobinhoodRollout.BatchBComplete | scripts/deploy-evm-treasury-router-v4.ts:251-258 | a returned batch covers every recorded data action, and aims at no set-once slot that is taken |
| RobinhoodRollout.AdapterPlanSound | scripts/deploy-evm-treasury-router-v4.ts:222-231 | a refused adapter does not serve the factory and would refuse the binding, and for a bindable factory these are the refused ones; a planned one, executed, ends bound to the factory; a binding the adapter would take is planned |
| RobinhoodRollout.ResumeFromChain | scripts/deploy-evm-treasury-router-v4.ts:202-260 | rebuilt after k calls it is the rest, if and only if every recorded data action stays settled |
| RobinhoodRollout.BatchBBinds | scripts/deploy-evm-treasury-router-v4.ts:202-260 | executed, it binds locker, vault pin and every adapter of the chain kind to the one factory |
| RobinhoodRollout.PartsKept | scripts/deploy-evm-treasury-router-v4.ts:202-260 | no candidate makes a later plan refuse |
| RobinhoodRollout.BatchABreaksLiveGeneration | scripts/deploy-evm-treasury-router-v4.ts:132-150 | batch A on a live generation's community vault ends that generation's trading |
| RobinhoodRollout.A7SimulatesUnlessForeign | scripts/deploy-robinhood-gen7-generation.ts:490-515 | A7 passes its simulation if and only if no vault slot holds a foreign value |
| RobinhoodRollout.A7Safe | scripts/deploy-robinhood-gen7-generation.ts:233-239 | A7 run and interrupted at will leaves gen-6 untouched; carried through, every setter holds |
| RobinhoodRollout.B7Serves | scripts/deploy-robinhood-gen7-generation.ts:430-444 | B7 executed on a generation that trades keeps gen-6 as it was; gen-7 trades, can create and stays as shut as before |
| RobinhoodRollout.H7ExecutesOnce | scripts/deploy-robinhood-gen7-generation.ts:447-453 | H7 executes once, from the owner, before gen-7 is live; never again |
| RobinhoodWhole.A7Serves | scripts/deploy-robinhood-gen7-generation.ts:233-239 | from what the constructors leave, A7 carried through over any interruptions leaves gen-6 untouched and gen-7 trading on its own vault |
| RobinhoodWhole.B7Passes | scripts/deploy-robinhood-gen7-generation.ts:430-444 | a deployed generation with its router gets a batch B7, and that batch passes its simulation |
| RobinhoodWhole.ResumeB7 | scripts/deploy-robinhood-gen7-generation.ts:430-444 | B7 rebuilt after k calls is the rest and passes its simulation if and only if every recorded action stays settled; else it refuses |
| RobinhoodWhole.SetOnceNeverRefuses | scripts/lib/evmGenerationCreateWiring.ts:199-212 | set-once actions, such as the vault pin the deploy records, stay settled throughout |
| RobinhoodWhole.RolloutServes | scripts/deploy-robinhood-gen7-generation.ts:233-239 | A7 and then B7, each interrupted at will and refusals included: gen-6 trades, creates and is open as before; B7 gets through if and only if every recorded action stays settled up to the last sitting, and then gen-7 trades, can create and is as shut as deployed |
| Routes.PlanRouteList | scripts/configure-robinhood-stock-routes.ts:137-162 | the loop over routes emits the calls that differ, or refuses on policy or on the first route whose facts fail |
| Routes.PlanIsMissing | scripts/configure-bnb-quote-routes.ts:122-147 | a returned plan is the missing part of the listed routes' calls |
| Routes.PlanExecutable | contracts/integrations/RobinhoodStockGraduationAdapterV2.sol:172-217 | the planned batch executes if and only if, for every listed route not stored already, the stored one is neither loosened nor moved, the token has at most 18 decimals on Robinhood, and the adapter's own oracles answer if it asks them |
| Routes.LooseningNeverConverges | contracts/integrations/BnbQuoteGraduationAdapter.sol:229-308 | a planned loosening is refused by the adapter, so that plan never executes |
| Routes.RoutesConverge | scripts/configure-robinhood-stock-routes.ts:137-175 | executed, it holds exactly the wanted routes, touches no other token and leaves an empty second plan |
| Routes.HeldGetsNoCall | scripts/configure-robinhood-stock-routes.ts:137-162 | a route already held gets no call |
| Runway.PlanRunway | scripts/deploy-payout-roles-module.ts:324-351 | the nested loops emit an authorization for each listed open id, in order |
| Runway.PlannedIsOpen | scripts/deploy-payout-roles-module.ts:341-347 | planned ids are in time, not consumed, created, revoked or authorized |
| Runway.NeverAuthorizedAgain | scripts/deploy-payout-roles-module.ts:341-347 | over every history of runs, revocations and batches an id once revoked, consumed or created is never authorized again |
| Runway.FullRunFills | scripts/deploy-payout-roles-module.ts:320-323 | after a full run every listed id in time is authorized or frozen, and the same run plans nothing |
| Runway.PotPlannerReauthorizesRevoked | scripts/lib/gen7AirdropPot.ts:210-233 | a frozen week is planned by the pot planner and accepted on chain if and only if it was revoked |
| Runway.PlannersAgreeUnlessRevoked | scripts/lib/gen7AirdropPot.ts:210-233 | for a week still in time and not created, runway and pot planner agree if and only if it was not revoked |
| Runway.NeverAuthorizedAfter | scripts/deploy-payout-roles-module.ts:341-347 | once an id was revoked or created, in any history from any bounded state, no later runway authorizes it |
| Abi.DecodeEncoded | scripts/make-safe-batch.ts:64-67 | decoding an encoding gives the value back wherever it stands, for every nesting of tuples, arrays and bytes |
| Abi.DecodeAll | scripts/make-safe-batch.ts:64-67 | the same for a whole argument list with heads, tails and offsets |
| Abi.EncodingWhole | scripts/make-safe-batch.ts:64-67 | every encoding is a whole number of 32-byte words |
| Abi.EncodingInjective | scripts/make-safe-batch.ts:96-115 | two well-typed lists with one encoding are equal |
| Json.ValueReads | scripts/make-safe-batch.ts:46-49 | a printed value reads back, whatever follows it, with BigInts turned into strings |
| Json.RawUnreadable | scripts/make-safe-batch.ts:46-49 | a value with a typed array inside does not read back as an argument |
| Json.StringReads | scripts/make-safe-batch.ts:46-49 | escaping a string and reading it is the identity |
| Coders.ScalarKept | scripts/make-safe-batch.ts:46-49 | a scalar other than a bool keeps its value through its text if and only if it is no typed array |
| Coders.PlainKept | scripts/make-safe-batch.ts:103-110 | a nested value survives JSON if and only if no bool in it is the BigInt zero |
| Coders.CoerceAllEach | scripts/make-safe-batch.ts:64-67 | an argument list is encodable exactly when each argument is |
| Signatures.CompositeByText | scripts/make-safe-batch.ts:43 | testing the type's text for a leading tuple or a closing bracket recognizes exactly tuples and arrays |
| Signatures.TypeReads | scripts/make-safe-batch.ts:39-41 | a spelled-out type reads back as the type |
| Signatures.SignatureInjective | scripts/make-safe-batch.ts:66 | one signature text, one list of types |
| SafeBatch.ReencodingAgrees | scripts/make-safe-batch.ts:65-68 | the independent re-encoding never disagrees |
| SafeBatch.FillValues | scripts/make-safe-batch.ts:72-73 | the loop over parameters shows each name's last value |
| SafeBatch.BuildOne | scripts/make-safe-batch.ts:58-85 | one call's transaction, or the first of its refusals |
| SafeBatch.BuildBatch | scripts/make-safe-batch.ts:57-93 | all transactions in order, or the first call's refusal |
| SafeBatch.BuildAllMeans | scripts/make-safe-batch.ts:57-93 | a built batch holds every call's transaction in order; a refused one is refused for its first bad call |
| SafeBatch.VerifyBatch | scripts/make-safe-batch.ts:96-115 | accepts exactly the files without complaint, and names the first complaint |
| SafeBatch.SeenIsSigned | scripts/make-safe-batch.ts:95-115 | an accepted transaction's data is selector and encoding of the shown values, decodes to them, and is no other values' data |
| SafeBatch.BuiltAccepted | scripts/make-safe-batch.ts:57-115 | a built transaction passes if and only if its target and value are allowed and every shown argument reads back |
| SafeBatch.BuiltAcceptedDistinct | scripts/make-safe-batch.ts:57-115 | with distinct names and no value: if and only if no bool was given in a form its text does not keep and no bytes as a typed array |
| SafeBatch.PlainCallPasses | scripts/make-safe-batch.ts:57-115 | calls without value, with distinct names, bools given as bools and no typed arrays always pass |
| SafeBatch.PlainBatchPasses | scripts/make-safe-batch.ts:57-115 | a whole batch built from such calls passes |
| SafeBatch.SameNamesRefused | scripts/make-safe-batch.ts:72-73 | of parameters sharing a name, an earlier one of the last one's type reads back exactly when it was given the same value |
| SafeBatch.UnnamedPairRefused | scripts/make-safe-batch.ts:72-73 | two unnamed uint256 parameters given as 1 and 2 do not read back |
| SafeBatch.LooseBoolsRefused | scripts/make-safe-batch.ts:104-110 | concrete bools that do not survive |
| Documents.DocReads | scripts/make-safe-batch.ts:96-97 | a document printed with indentation reads back, objects, arrays and scalars at any depth |
| BatchFile.BuilderKeepsType | scripts/make-safe-batch.ts:51-55 | keeping only name, type and components of a parameter keeps its spelled-out type |
| BatchFile.ParamDescribes | scripts/make-safe-batch.ts:39-43 | every valid type, nested however, is described by `type` and `components` and read back from them |
| BatchFile.TextTells | scripts/make-safe-batch.ts:43 | for a described type the text test for tuples and arrays answers as the type does |
| BatchFile.FileReadsBack | scripts/make-safe-batch.ts:75-93 | the written text is read back as the batch that was built: targets, values, data, parameters and shown values |
| BatchFile.VerifyBatchFile | scripts/make-safe-batch.ts:96-115 | accepts a text exactly when it reads as a batch of that chain without checksum or complaint |
| BatchFile.WrittenFilePasses | scripts/make-safe-batch.ts:57-115 | the written file passes if and only if targets and values are allowed and every shown argument reads back |
| BatchFile.PlainFilePasses | scripts/make-safe-batch.ts:57-115 | calls without value, with distinct names, bools given as bools and no typed arrays, make a file that passes |
| Calendar.ClosedForm | scripts/deploy-mwl-payout-vaults.ts:57 | the closed form of Day From Year counts the days of the years, on both sides of 1970 |
| Calendar.MakeDayCounts | scripts/deploy-mwl-payout-vaults.ts:57 | MakeDay counts the days of all months before |
| Calendar.DayInItsMonth | scripts/deploy-mwl-payout-vaults.ts:53-54 | year and month extraction finds the month the day lies in |
| Calendar.MonthIndexUnique | scripts/deploy-mwl-payout-vaults.ts:53-59 | extraction and day count are mutually inverse |
| PayoutVaults.PeriodWindows | scripts/deploy-mwl-payout-vaults.ts:51-65 | window i is the i-th month or quarter in closed form |
| PayoutVaults.FirstWindowContains | scripts/deploy-mwl-payout-vaults.ts:50-59 | the first window contains the moment asked for, if and only if its year is not 0 to 99 |
| PayoutVaults.WindowsMeet | scripts/deploy-mwl-payout-vaults.ts:56-63 | consecutive windows meet |
| PayoutVaults.StartsIncrease | scripts/deploy-mwl-payout-vaults.ts:56-63 | later windows start later |
| PayoutVaults.QuarterIsThreeMonths | scripts/deploy-mwl-payout-vaults.ts:51-65 | a quarter's window is its three months' windows put together |
| PayoutVaults.OneWindowPerMoment | scripts/deploy-mwl-payout-vaults.ts:51-65 | every moment lies in exactly one window |
| PayoutVaults.EpochIdsDiffer | scripts/deploy-mwl-payout-vaults.ts:45-48 | under an injective hash different epochs have different ids |
| PayoutVaults.MwlVaultSafeCalls | scripts/deploy-mwl-payout-vaults.ts:68-95 | the batch: opening calls, then one authorization per month and quarter from its end for 730 days |
| PayoutVaults.EpochsDistinct | scripts/deploy-mwl-payout-vaults.ts:86-93 | no two epochs of one batch share kind and start |
| PayoutBatch.BatchHoldsEveryEpoch | contracts/TreasuryVaultV2.sol:145-156 | once the batch executed, both vaults are open and every month and quarter is authorized under its own id with its own window |
| PayoutBatch.BatchTaken | contracts/TreasuryVaultV2.sol:129-156 | the batch executes if and only if the Safe owns both vaults and the league treasury, both vaults have a root poster and a positive maximum, and no epoch in it was used before |
| ImportFeeVault.HistoryKeepsSafe | scripts/deploy-import-fee-vault.ts:155-172 | over every history of cut-off runs and Safe executions payouts are open only with an operator and both caps |
| ImportFeeVault.RecordedVaultStays | scripts/deploy-import-fee-vault.ts:269-280 | a recorded vault's address never changes and no further vault is deployed |
| ImportFeeVault.VaultsDeployed | scripts/deploy-import-fee-vault.ts:269-280 | vaults are deployed once plus once per run cut between deployment and record, and only then |
| ImportFeeVault.FinishedNothingPending | scripts/deploy-import-fee-vault.ts:299-310 | a finishing testnet or local run leaves nothing pending for its own operator and caps |
| ImportFeeVault.SafeFinishes | scripts/deploy-import-fee-vault.ts:291-298 | on mainnet the same once the Safe executed the written batch |
| ImportFeeVault.PendingExecutes | scripts/deploy-import-fee-vault.ts:164-172 | the pending calls are accepted in order and reach the wanted configuration |
| ImportFeeVault.PendingResumes | scripts/deploy-import-fee-vault.ts:155-172 | stopped after any k pending calls, what is pending then is exactly the rest |
| ImportFeeVault.FreshPendsAll | scripts/deploy-import-fee-vault.ts:155-172 | for a freshly deployed vault exactly the three calls of a full batch are pending |
| ImportFeeVault.RestartConverges | scripts/deploy-import-fee-vault.ts:220-331 | a cut-off run repeated ends where an uncut run ends, if and only if it was not cut between deployment and record |
| ImportFeeVault.Script.Start | scripts/deploy-import-fee-vault.ts:220-331 | one run performs its effects in order up to where it is cut off |
| Registry.ReplaceKeeps | scripts/deploy-factory-only.ts:99-146 | replacing leaves the new factory the one creator, keeps everyone's service and drops nobody |
| Registry.StageKeeps | scripts/deploy-scheduled-test-factory.ts:222-310 | staging leaves creation at the old factory and adds the new one without it |
| Registry.ActivateKeeps | scripts/activate-scheduled-test-factory.ts:236-292 | activating moves creation to the staged factory and changes nothing else of the staged file |
| Registry.HappensKeepsSound | scripts/deploy-factory-only.ts:99-146 | every event keeps the invariant, and no factory's trading or support flips |
| Registry.HistoryKeepsSound | scripts/activate-scheduled-test-factory.ts:236-292 | over every interleaving addresses are distinct and exactly one entry, the active factory, creates |
| Registry.DropsExactlyWhenStale | scripts/activate-scheduled-test-factory.ts:236-292 | one event loses a factory if and only if it activates a stale staged file |
| Registry.StaleExactlyWhenReplaced | scripts/activate-scheduled-test-factory.ts:236-292 | the staged file is stale if and only if a replacement came after the last staging or activation |
| Registry.StagedThenReplacedIsLost | scripts/activate-scheduled-test-factory.ts:236-292 | stage, replace, activate loses the replacement |
| Registry.StagingAgainForgets | scripts/deploy-scheduled-test-factory.ts:222-310 | staging again forgets a staged factory that was not activated |
| RegistryFiles.FilesKeepSound | scripts/deploy-factory-only.ts:47-58 | whatever files the runs are pointed at, every file with a registry lists addresses once and opens creation at exactly one |
| RegistryFiles.LostExactly | scripts/activate-scheduled-test-factory.ts:37-48 | a run loses a factory another file lists if and only if the file it reads does not know that factory |
| RegistryFiles.ReplacedTwiceIsLost | scripts/deploy-factory-only.ts:47-58 | replaced twice from one file, the second output does not list the first one's factory |
| RegistryFiles.FollowingIsHistory | scripts/deploy-scheduled-test-factory.ts:29-40 | runs each pointed at the file in use behave as one current and one staged file |
| Registry.Lifecycle.ReplaceFactory | scripts/deploy-factory-only.ts:99-146 | the map and the two pushes; every state reached keeps the invariant |
| Registry.Lifecycle.StageFactory | scripts/deploy-scheduled-test-factory.ts:222-310 | the map, the old generation and the pushes, in a file of their own; the invariant is kept |
| Registry.Lifecycle.ActivateStaged | scripts/activate-scheduled-test-factory.ts:236-292 | the rewrite of the staged file, entry by entry, over the current one, or the refusal; the invariant is kept and creation moves to the staged factory |
| Linking.LinkedBytecode | scripts/deploy-robinhood-testnet-infrastructure.ts:25-43 | the nested splice loops perform the links in order, or stop at the first missing library or wrong length |
| Linking.LinkPerformsEdits | scripts/deploy-robinhood-testnet-infrastructure.ts:25-43 | linking succeeds if and only if every library is there with the right length, and then performs the listed edits |
| Linking.AppliedAt | scripts/deploy-robinhood-testnet-infrastructure.ts:34-39 | disjoint edits in range keep the length, put each address at its place and change nothing else |
| Linking.LinkOrderIrrelevant | scripts/deploy-robinhood-testnet-infrastructure.ts:29-41 | the same edits in any order give the same code |
| Harvest.HarvestEvents | scripts/diagnose-bnb-real-topaz-harvest.ts:15-30 | the rows are exactly the events from the returned block on, empty exactly when the whole lookback is, and all of the lookback exactly when its events lie in one chunk |
| Harvest.FoundWholeExactly | scripts/diagnose-bnb-real-topaz-harvest.ts:15-30 | a scan that stopped at a chunk found the whole lookback if and only if the newest event's chunk holds all of it |
| Harvest.QueryExact | scripts/diagnose-bnb-real-topaz-harvest.ts:22-24 | a query returns exactly the events of its range |
| Harvest.ScanCompleteExactly | scripts/diagnose-bnb-real-topaz-harvest.ts:15-30 | the rows cover the lookback if and only if no event lies below the returned block |
| Harvest.Totals | scripts/diagnose-bnb-real-topaz-harvest.ts:69-81 | one total per token seen: the sums over its rows, each transaction named once |
| Harvest.ShareOfTheSum | scripts/diagnose-bnb-real-topaz-harvest.ts:89-121 | per-harvest rounding is at most 4n/5 below the aggregate, and equal if and only if under one unit is lost |
| Harvest.AccountingExactly | scripts/diagnose-bnb-real-topaz-harvest.ts:89-121 | the accounting looks exact if and only if what was credited before the scan equals the units rounding lost in it; with nothing before, under one unit lost |
| Harvest.NothingUnaccounted | contracts/PermanentLpLocker.sol:405-406 | creator and protocol parts add up to what was collected |
| WarPool.SplitExact | scripts/canary-arena-war-pool.ts:121-127 | winner, protocol and league add up exactly; the winner's share is at least 75% and 90% and the dust is below 3 units |
| WarPool.StepKeepsSound | contracts/ArenaWarPoolTreasuryV2.sol:262-766 | every call keeps balance equal to what the pools owe |
| WarPool.RunKeepsSound | contracts/ArenaWarPoolTreasuryV2.sol:262-766 | the same over every run with any pools and order |
| WarPool.Conserved | contracts/ArenaWarPoolTreasuryV2.sol:262-766 | the balance is the sum over pools of deposits less payouts |
| WarPool.PayoutsSolvent | contracts/ArenaWarPoolTreasuryV2.sol:528-766 | no claim or refund fails for want of money |
| WarPool.PaidOnce | contracts/ArenaWarPoolTreasuryV2.sol:528-732 | over every run after a bucket was paid, a call drawing on it is refused |
| WarPool.WalletRefundedOnce | contracts/ArenaWarPoolTreasuryV2.sol:721-766 | over every later run a wallet's buy-in or boost refund is refused when repeated |
| WarPool.ClaimsCommute | scripts/canary-arena-war-pool.ts:156-164 | claims of two buckets commute and pay the same amounts in either order |
| WarPool.VerdictBindsBoosts | contracts/ArenaWarPoolTreasuryV2.sol:475-500 | a verdict signed before a boost no longer resolves the pool |
| WarPool.ExpiredIsRefundable | contracts/ArenaWarPoolTreasuryV2.sol:742-750 | a live pool past its deadline is released with everything still owed |
| WarPool.OperatorSplitExact | contracts/ArenaWarPoolTreasuryV2.sol:656-688 | operator and protocol parts are the payment, and the fill never passes the cap |
| WarPool.OperatorGetsNothing | contracts/ArenaWarPoolTreasuryV2.sol:656-688 | the operator gets no part exactly when none is set, the rate is zero, the cap is reached or the part rounds to zero |
| WarPool.PaymentsLeaveBalance | contracts/ArenaWarPoolTreasuryV2.sol:528-766 | what leaves the balance is exactly the payments, to whom each goes |
| Canary.RunCanary | scripts/canary-arena-war-pool.ts:85-193 | beside any other pools: it gets through if and only if the battle is playable, both fee buckets are filled and the league takes deposits; it passes if moreover every receiver got what was expected; other pools and the balance are as before |
| Canary.ReceivedExactly | scripts/canary-arena-war-pool.ts:146-170 | the balance checks hold if and only if no fee reaches the winner, and what the operator and the gas take from a receiver is what else it gets; for any receivers and operator |
| Canary.ReceivedOffWallets | scripts/canary-arena-war-pool.ts:146-170 | off the playing wallets: for two receivers iff the operator gets no part or is the receiver; for one shared receiver iff the shares are equal and the operator takes all of the protocol payment |
| Canary.SharedReceiverPasses | scripts/canary-arena-war-pool.ts:146-170 | concrete amounts for which a shared receiver passes |
| Canary.FilledOperatorFails | scripts/canary-arena-war-pool.ts:146-170 | the default amounts with an operator to fill: buckets filled, nothing reaches the protocol receiver, the canary fails |
| Canary.BucketsFilledExactly | scripts/canary-arena-war-pool.ts:121-127 | the buckets are filled if and only if the stake is at least 3 units and stake or boost at least 10 |

## Left out

- RPC reads, receipts, retries, environment variables, confirmation phrases, path selection, console output and file writing.
- `planFactoryBind` of the route scripts: the same rule as batch B's adapter binding.
- Harvest.AccountingExactly: credits are counted by the events; amounts the locker still holds for several pools or that were withdrawn are not modelled.
- PayoutBatch.BatchTaken: the two vaults are distinct contracts with the vault's own owner rules; claims and roots are not modelled.
- The airdrop pot part of Robinhood's batch A: the same planner as BNB's.
- The weeks and chain guard of `runwayCalls`, `nextEpochEnds` and the id generators: their ids and deadlines are inputs.
- Routes.PlanExecutable: what the script measures of a route and what the adapter measures (its oracles, on BNB the depth at the wanted floor) are one fact each; floating-point USD values are not modelled.
- Recorded owner actions are among the 22 modelled calls: `setNativeGraduationAdapter`, `setLaunchTokenDeployer` and the locker's timelocked propose and accept calls cannot be expressed.
- BnbWhole.RolloutServes: the weekly list is the same in every sitting; `BnbSafety.FinalReplan` is about a list that grew.
- The factory's liquidity kind and stock-implementation probes, and the constant arguments of calls (`allowed`, `paused`).
- SafeBatch.SeenIsSigned: two functions whose signatures share a four-byte selector are told apart by the shown name only; data longer than 2^256 bytes is excluded.
- SafeBatch.BuiltAccepted: parameter names are ordinary keys (`__proto__` is not), and each type of the function is a valid ABI type.
- Coders.ScalarKept: of the objects given for an argument only byte arrays (`Uint8Array`) are modelled, not Node's `Buffer`, whose text differs.
- Json.ValueReads: fractions, exponents, unsafe numbers and lone surrogates are refused when read; objects given for tuples are not modelled.
- BatchFile.VerifyBatchFile: a file whose `to` is no address, or that shows a value other than a scalar, is refused though the script might not look at it; alias type names (`uint`) and tuples spelled out inside `type` are not read.
- BatchFile.FileReadsBack: the checksum casing of the printed address is any text that reads as the address, and the values stand in any order.
- Of the spellings `BigInt(...)` takes, decimal and hexadecimal ones are modelled; the checksum of mixed-case addresses is not.
- Payout window labels are kept as year and part, not printed; dates beyond the range of `Date` are not excluded.
- ImportFeeVault.Script.Start: the fee router the script can deploy beside the vault, the runtime code comparison and the checks of the operator's key against other roles are not modelled.
- Registry.Lifecycle.ReplaceFactory: the descriptive fields of an entry (blocks, routers, notes) are carried along unchanged in the source and are not modelled.
- Linking: prototype names as library names, and characters outside ASCII when lower-casing.
- WarPool.StepKeepsSound: ether forced into the contract, receivers other than the league that refuse payment, the league's pool ids taken by other sources, reentrancy, tournament places (`resolvePlaces`) and the signed fields of a boost quote other than price, units, nonce and deadline are not modelled.
- Call data equality in the coverage loops is equality of calls.
