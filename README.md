# A verified model of five parts of open-autonomy

This project models, in Dafny, five parts of the open-autonomy framework for
agent services that replicate a state machine over Tendermint:

- **The reset-and-pause rounds** (`rounds.dfy`, module `ResetPauseRounds`).
  `ResetRound` and `ResetAndPauseRound` collect one `ResetPayload` per
  participant and check each payload.
  - `process_payload` updates the collection in place, so it is modelled by the class `ThresholdRound`.
  - At the end of a block, each round decides `DONE` with a new period state, `NO_MAJORITY` with the unchanged state, or nothing yet.
  - `ResetPauseABCIApp` is modelled as a finite transition table with initial and final states and timeout constants.
- **The ABCI handler** of the `abci` skill (`abci_handler.dfy`, module `AbciHandlers`).
  - It refuses a message whose dialogue is lost, and a response-type performative.
  - It strips `request_`, dispatches on the remaining name, and puts at most one reply in the outbox (`AbciHandler.outbox`).
  - Each request handler builds a fixed reply.
- **The registration behaviours** (`registration.dfy`, module `Registration`).
  - `RegistrationBaseBehaviour.async_act` builds the registration payload: the sorted-key JSON of `initial_data`, or nothing when it is empty.
  - `RegistrationStartupBehaviour.async_act` is a re-entrant, gated step. It fetches the local Tendermint configuration, then queries the service registry (`get_addresses`). Next it asks every registered peer not yet collected, then writes the seeds into the configuration and restarts the node. Only then does it submit.
  - The step is modelled twice:
    - as the function `Step`, whose properties are proved as lemmas;
    - as the class `RegistrationStartupBehaviour`, whose `AsyncAct` is proved to follow `Step`.
  - The results of the HTTP and contract calls are inputs of the step (`Env`). Every call the step makes is recorded in its trace (`Effect`).
  - `registered_addresses` is read as Python reads whatever value `initial_data` holds there. Its truth value decides whether the registry is queried. `set()` of a text gives its characters, and of a number or null raises `TypeError`. `.values()` of anything but a table raises `AttributeError`.
- **The handler-declaration check** of the `analyse` command (`analyse_handlers.dfy`, module `AnalyseHandlers`). `check_handlers` works in this order:
  - it derives the dotted module name of a skill's `handlers.py` from its path below the working directory;
  - it skips ignored skills;
  - it requires every common handler to be declared, and every declared class to exist in the module.
- **The log helpers** of the `analyse` command (`analyse_logs.dfy`, module `AnalyseLogs`).
  - `run_dialogues_check` has skip and convert logic.
  - `ParseLogs` holds the per-agent databases and performs four operations:
    - `create_tables` creates them;
    - `select` queries them;
    - `execution_path` shows the round path of each agent;
    - `table` prints the rows.

Two shared modules support these:
- `wrappers.dfy` (module `Wrappers`) holds `Option`, `Result` and the `Outcome` of a check.
- `strings.dfy` (module `Strings`) holds `str.replace`, `in` on strings, joining, and the lexicographic order used by `sort_keys=True`.

Some definitions belong to framework base classes that are not part of this model. They are given concrete definitions here, marked ASSUMPTION in `rounds.dfy`:
- the threshold: `n * 2 / 3 + 1` votes out of `n` participants, grouped by the voted period count;
- the most voted value: the largest group, with the least value on a tie;
- `is_majority_possible`: the largest group plus every participant that has not voted yet reaches the threshold;
- `update`: it overlays the given keys on the state's data;
- `get_strict`: it fails on a missing key.

Where the code and the application's own docstring disagree, the model follows the code:
- The docstring of `ResetPauseABCIApp` names `RegistrationRound` as the initial round; the code uses `ResetAndPauseRound`.
- The docstring lists only `FinishedResetAndPauseRound` as final; the code declares both finished rounds final.

## Model

| member | source | states |
|---|---|---|
| ResetPauseRounds.Quorum | packages/valory/skills/reset_pause_abci/rounds.py:61 | ASSUMPTION: the threshold for `n` participants is the least count strictly above two thirds of `n` (`3q > 2n` and `3(q-1) <= 2n`) |
| ResetPauseRounds.ThresholdReached | packages/valory/skills/reset_pause_abci/rounds.py:61 | ASSUMPTION: `threshold_reached` holds when some voted value has at least `Quorum(n)` votes; its meaning is proved by `ThresholdIsTwoThirds` and `ThresholdWinner` |
| ResetPauseRounds.IsMajorityPossible | packages/valory/skills/reset_pause_abci/rounds.py:69-71 | ASSUMPTION: `is_majority_possible` holds when the largest group plus the participants that have not voted reach the threshold; its soundness is proved by `NoMajorityIsFinal` and `ThresholdImpliesMajorityPossible` |
| ResetPauseRounds.MaxVotes | packages/valory/skills/reset_pause_abci/rounds.py:69-71 | no vote group is larger; for a non-empty collection it is the size of some group |
| ResetPauseRounds.MostVoted | packages/valory/skills/reset_pause_abci/rounds.py:64-65 | the most voted period count is a voted value, and no other value has a larger group |
| ResetPauseRounds.ThresholdIsTwoThirds | packages/valory/skills/reset_pause_abci/rounds.py:61 | the threshold is reached exactly when some value has more than two thirds of `n` votes |
| ResetPauseRounds.ThresholdWinner | packages/valory/skills/reset_pause_abci/rounds.py:64-65 | once the threshold is reached, the collection is not empty and the most voted value is one that reached it |
| ResetPauseRounds.DisjointGroups | packages/valory/skills/reset_pause_abci/rounds.py:61 | two different values together have no more votes than there are payloads |
| ResetPauseRounds.UniqueWinner | packages/valory/skills/reset_pause_abci/rounds.py:115-120 | with no more payloads than participants, a value that reaches the threshold is the most voted one, so `DONE` is decided for a unique period count; the bound is needed (see `ScenarioWiderEligibility`) |
| ResetPauseRounds.ThresholdImpliesMajorityPossible | packages/valory/skills/reset_pause_abci/rounds.py:61-73 | a reached threshold leaves a majority possible, so the two tests never give contradictory answers |
| ResetPauseRounds.GroupGrowth | packages/valory/skills/reset_pause_abci/rounds.py:69-72 | adding payloads grows a vote group by at most the number added |
| ResetPauseRounds.AddedCount | packages/valory/skills/reset_pause_abci/rounds.py:97 | a collection that extends another has exactly as many new senders as it has more payloads |
| ResetPauseRounds.NoMajorityIsFinal | packages/valory/skills/reset_pause_abci/rounds.py:69-72 | soundness of the early `NO_MAJORITY` exit: once a majority is impossible, no extension to at most `n` payloads reaches the threshold |
| ResetPauseRounds.Update | packages/valory/skills/reset_pause_abci/rounds.py:64-67 | ASSUMPTION: the new snapshot has the given period count. Its data are the old keys plus the new ones, with a new value winning. It keeps the participant sets and the persisted-key list |
| ResetPauseRounds.Persisted | packages/valory/skills/reset_pause_abci/rounds.py:116-118 | the strict read of every cross-period persisted key; its meaning is proved by `PersistedCopies`, `PersistedFirstMissing` and `PersistedErrorPropagates` |
| ResetPauseRounds.PersistedCopies | packages/valory/skills/reset_pause_abci/rounds.py:116-118 | reading the persisted keys succeeds exactly when every key is present; the result then holds exactly those keys, each copied from the data |
| ResetPauseRounds.PersistedFirstMissing | packages/valory/skills/reset_pause_abci/rounds.py:117-118 | when keys are missing, the error names the first missing key in list order |
| ResetPauseRounds.PersistedErrorPropagates | packages/valory/skills/reset_pause_abci/rounds.py:117-118 | an error raised on a prefix of the key list is the error of the whole loop |
| ResetPauseRounds.Violation | packages/valory/skills/reset_pause_abci/rounds.py:99-111 | a payload is refused as a non-participant exactly when its sender is not eligible, and as a duplicate exactly when the sender is eligible and has already sent; otherwise it is accepted |
| ResetPauseRounds.Clash | packages/valory/skills/reset_pause_abci/rounds.py:119-124 | finds a keyword passed to `update` both explicitly and through the persisted keys, if any; none exactly when no name is a persisted key |
| ResetPauseRounds.ResetEndBlock | packages/valory/skills/reset_pause_abci/rounds.py:59-73 | `ResetRound.end_block`: `DONE` with the updated state above the threshold, else `NO_MAJORITY` or nothing; its outcomes are proved by `DoneIffThreshold`, `ResetDoneState` and `BelowThreshold` |
| ResetPauseRounds.ResetAndPauseEndBlock | packages/valory/skills/reset_pause_abci/rounds.py:113-130 | `ResetAndPauseRound.end_block`, with the persisted keys read strictly; its outcomes are proved by `DoneIffThreshold`, `ResetAndPauseDoneState` and `BelowThreshold` |
| ResetPauseRounds.EndBlockOf | packages/valory/skills/reset_pause_abci/rounds.py:59-130 | the `end_block` of the round of a given kind; the lemmas below are stated for both kinds through it |
| ResetPauseRounds.BelowThreshold | packages/valory/skills/reset_pause_abci/rounds.py:126-130 | in both rounds, below the threshold an impossible majority gives `NO_MAJORITY` with the unchanged state, and otherwise no decision |
| ResetPauseRounds.DoneIffThreshold | packages/valory/skills/reset_pause_abci/rounds.py:113-130 | in both rounds, `DONE` is decided exactly when the threshold is reached and no error is raised; below the threshold no error is raised |
| ResetPauseRounds.ResetDoneState | packages/valory/skills/reset_pause_abci/rounds.py:59-68 | on `DONE`, `ResetRound` hands on: the most voted period count, which reached the threshold; all prior data, with `tx_hashes_history` set to none; and the participant sets unchanged |
| ResetPauseRounds.ResetAndPauseDoneState | packages/valory/skills/reset_pause_abci/rounds.py:113-125 | on `DONE`, `ResetAndPauseRound` hands on: the most voted period count; the participant sets and persisted-key list unchanged; and every persisted key equal to its prior value |
| ResetPauseRounds.ThresholdRound.constructor | packages/valory/skills/reset_pause_abci/rounds.py:76-81 | a new round holds the given kind and state, an empty collection, and its invariant |
| ResetPauseRounds.ThresholdRound.CheckPayload | packages/valory/skills/reset_pause_abci/rounds.py:99-111 | `check_payload` passes exactly when the sender is eligible and has not sent yet; it raises `TransactionNotValidError` with the violated rule, and it reads but never changes the round |
| ResetPauseRounds.ThresholdRound.ProcessPayload | packages/valory/skills/reset_pause_abci/rounds.py:83-97 | `process_payload` raises `ABCIAppInternalError` for a non-participant or duplicate and leaves the collection unchanged; otherwise it files the payload under its sender, growing the collection by exactly one, and keeps the invariant |
| ResetPauseRounds.ThresholdRound.EndBlock | packages/valory/skills/reset_pause_abci/rounds.py:113-130 | `end_block` returns the decision `EndBlockOf` gives for the round's kind, state and collection |
| ResetPauseRounds.CollectionBounded | packages/valory/skills/reset_pause_abci/rounds.py:86-97 | the invariant bounds the collection by the number of eligible senders |
| ResetPauseRounds.CollectPersisted | packages/valory/skills/reset_pause_abci/rounds.py:116-118 | the loop that reads every persisted key strictly computes `Persisted` |
| ResetPauseRounds.NextRound | packages/valory/skills/reset_pause_abci/rounds.py:183-195 | a next round exists exactly when the table has an edge for the round and event |
| ResetPauseRounds.Run | packages/valory/skills/reset_pause_abci/rounds.py:183-195 | the round reached by following the transition function along a sequence of events; its reach is proved by `RunStaysInPeriod` and `ReachableRoundsAreDeclared` |
| ResetPauseRounds.TransitionTable | packages/valory/skills/reset_pause_abci/rounds.py:178-203 | the application's declarations: `DONE` leads from each round to its finished round; `RESET_TIMEOUT` and `NO_MAJORITY` are self-loops; final rounds have no edge; `ROUND_TIMEOUT` has no edge; the initial round is an initial state; no initial state is final; exactly the two timeouts are declared, each of 30.0 seconds |
| ResetPauseRounds.DecisionsHaveEdges | packages/valory/skills/reset_pause_abci/rounds.py:183-195 | every event a round's `end_block` can emit has an edge from that round |
| ResetPauseRounds.RunStaysInPeriod | packages/valory/skills/reset_pause_abci/rounds.py:183-199 | from an initial or final round, every run of events stays in that round or its finished round, and nothing leaves a final round |
| ResetPauseRounds.ReachableRoundsAreDeclared | packages/valory/skills/reset_pause_abci/rounds.py:178-199 | every round reachable from the initial round is final or has an entry in the table |
| ResetPauseRounds.ScenarioThreeOfFour | packages/valory/skills/reset_pause_abci/rounds.py:61-65 | with four participants and votes 1, 1, 1, 2, the threshold is reached with period count 1 |
| ResetPauseRounds.ScenarioThreeDistinct | packages/valory/skills/reset_pause_abci/rounds.py:69-72 | with four participants and votes 1, 2, 3, the threshold is not reached and a majority is impossible (`NO_MAJORITY`) |
| ResetPauseRounds.ScenarioTwoDistinct | packages/valory/skills/reset_pause_abci/rounds.py:69-73 | with four participants and votes 1, 2, a majority is still possible (no decision yet) |
| ResetPauseRounds.ScenarioWiderEligibility | packages/valory/skills/reset_pause_abci/rounds.py:99-111 | with four participants among six eligible senders, the votes 1, 1, 1, 2, 2, 2 are all accepted and both values reach the threshold, so `UniqueWinner` needs its bound |
| AbciHandlers.LookupHandler | packages/valory/skills/abstract_abci/handlers.py:72-77 | `getattr` finds a handler only under that handler's own name |
| AbciHandlers.LookupHandlerName | packages/valory/skills/abstract_abci/handlers.py:72 | every request handler is found under its own name |
| AbciHandlers.RequestTypeName | packages/valory/skills/abstract_abci/handlers.py:70 | `performative.replace("request_", "")`; `RequestReachesHandler` proves that `request_<name>` gives `<name>` |
| AbciHandlers.Dispatch | packages/valory/skills/abstract_abci/handlers.py:82 | calls the handler found for a request type; `DispatchMatchesRequest` proves each reply matches its request |
| AbciHandlers.Info | packages/valory/skills/abstract_abci/handlers.py:102-127 | the `info` reply; its fields are stated by `BookkeepingReplies` |
| AbciHandlers.Flush | packages/valory/skills/abstract_abci/handlers.py:128-145 | the `flush` reply, answering the request given (`DispatchMatchesRequest`) |
| AbciHandlers.InitChain | packages/valory/skills/abstract_abci/handlers.py:146-165 | the `init_chain` reply, answering the request given (`DispatchMatchesRequest`) |
| AbciHandlers.Query | packages/valory/skills/abstract_abci/handlers.py:166-190 | the `query` reply; its fields are stated by `BookkeepingReplies` |
| AbciHandlers.CheckTx | packages/valory/skills/abstract_abci/handlers.py:191-214 | the `check_tx` reply; its fields are stated by `TransactionRepliesAccept` |
| AbciHandlers.DeliverTx | packages/valory/skills/abstract_abci/handlers.py:215-238 | the `deliver_tx` reply; its fields are stated by `TransactionRepliesAccept` |
| AbciHandlers.BeginBlock | packages/valory/skills/abstract_abci/handlers.py:239-255 | the `begin_block` reply, answering the request given (`DispatchMatchesRequest`) |
| AbciHandlers.EndBlock | packages/valory/skills/abstract_abci/handlers.py:256-273 | the `end_block` reply, answering the request given (`DispatchMatchesRequest`) |
| AbciHandlers.Commit | packages/valory/skills/abstract_abci/handlers.py:274-289 | the `commit` reply; its fields are stated by `BookkeepingReplies` |
| AbciHandlers.DispatchMatchesRequest | packages/valory/skills/abstract_abci/handlers.py:102-290 | each handler replies with `response_<its name>`, targeted at the message it was given |
| AbciHandlers.TransactionRepliesAccept | packages/valory/skills/abstract_abci/handlers.py:191-237 | `check_tx` and `deliver_tx` reply with code 0, empty data, zero gas wanted and used, and no events |
| AbciHandlers.BookkeepingReplies | packages/valory/skills/abstract_abci/handlers.py:102-290 | `query` replies with code 0, empty key and value, and height 0; `info` with height 0, app version 0 and an empty app hash; `commit` with empty data and retain height 0 |
| AbciHandlers.Replies | packages/valory/skills/abstract_abci/handlers.py:44-83 | one message puts at most one reply in the outbox |
| AbciHandlers.RepliesByCase | packages/valory/skills/abstract_abci/handlers.py:44-83 | by case: a lost dialogue gets one `Invalid dialogue.` exception to the sender; a `response_` performative gets one exception naming it; otherwise nothing is sent exactly when no handler has the stripped name; any non-exception reply is the reply of the handler named by the stripped performative |
| AbciHandlers.HandlerNameIsPlain | packages/valory/skills/abstract_abci/handlers.py:62-70 | no handler name contains `request_`, and no request performative contains `response_` |
| AbciHandlers.PrefixedNameIsRequest | packages/valory/skills/abstract_abci/handlers.py:62 | `request_` followed by a name with no `r` far enough from its end does not contain `response_` |
| AbciHandlers.RequestReachesHandler | packages/valory/skills/abstract_abci/handlers.py:59-83 | a `request_<name>` performative passes the response test, strips to `<name>`, and exactly that handler's reply, with the matching response performative, goes to the dialogue's counterparty |
| AbciHandlers.AbciHandler.constructor | packages/valory/skills/abstract_abci/handlers.py:35-42 | a new handler starts with an empty outbox |
| AbciHandlers.AbciHandler.Handle | packages/valory/skills/abstract_abci/handlers.py:44-83 | `handle` appends exactly what `Replies` gives to the outbox, after what was already sent |
| AbciHandlers.AbciHandler.SendException | packages/valory/skills/abstract_abci/handlers.py:89-100 | `send_exception` appends one exception reply, carrying the given error, addressed to the message's sender |
| Strings.SortedKeys | packages/valory/skills/registration_abci/behaviours.py:71 | `sort_keys=True` order: the keys of a set, each once, in strictly increasing lexicographic order |
| Strings.ReplaceAll | packages/valory/skills/abstract_abci/handlers.py:70 | `str.replace` of every occurrence, left to right; what it gives on handler names and paths is proved by `AbciHandlers.RequestReachesHandler`, `AnalyseHandlers.StripPy` and `AnalyseHandlers.SlashesToDots` |
| Strings.Contains | packages/valory/skills/abstract_abci/handlers.py:62 | the substring test `in`; `AbciHandlers.HandlerNameIsPlain` proves no request performative contains `response_` |
| Registration.DecodeEncode | packages/valory/skills/registration_abci/behaviours.py:70-73 | reading back the JSON written for any initial-data value gives that value |
| Registration.DecodeEncodeTable | packages/valory/skills/registration_abci/behaviours.py:70-73 | a `registered_addresses` table written with sorted keys reads back as the same table |
| Registration.DumpsSortsKeys | packages/valory/skills/registration_abci/behaviours.py:70-72 | `json.dumps(initial_data, sort_keys=True)` writes each key of the data once, in strictly increasing order, with its value's JSON |
| Registration.LoadsDumps | packages/valory/skills/registration_abci/behaviours.py:70-73 | `json.loads(json.dumps(initial_data))` gives back `initial_data` |
| Registration.Dumps | packages/valory/skills/registration_abci/behaviours.py:71 | `json.dumps(initial_data, sort_keys=True)` as a JSON tree; it is an object, and `DumpsSortsKeys` and `LoadsDumps` state its members and its round trip |
| Registration.Loads | packages/valory/skills/registration_abci/behaviours.py:70-73 | a reference reading of an initialisation back into initial data, the partner of `Dumps` in `LoadsDumps` |
| Registration.MakePayload | packages/valory/skills/registration_abci/behaviours.py:69-77 | the payload `RegistrationBaseBehaviour.async_act` builds; `PayloadContents` states what it carries |
| Registration.PayloadContents | packages/valory/skills/registration_abci/behaviours.py:69-77 | the payload carries the agent's address. Its initialisation is none exactly when the initial data are empty; otherwise it is a JSON object with strictly sorted keys that reads back as the initial data |
| Registration.AddressTableFor | packages/valory/skills/registration_abci/behaviours.py:167-168 | the new table has exactly the registered instances as keys, maps the agent's own address to its Tendermint URL and every other agent to none |
| Registration.RegisteredValue | packages/valory/skills/registration_abci/behaviours.py:95-98 | `initial_data.get("registered_addresses", {})`: the stored value, of whatever kind, or an empty table |
| Registration.Truthy | packages/valory/skills/registration_abci/behaviours.py:256 | Python's `not` on that value: null, the empty text, zero and the empty table are falsy |
| Registration.Members | packages/valory/skills/registration_abci/behaviours.py:263 | `set()` of that value: a table's agents, a text's characters, `TypeError` for a number or null |
| Registration.TruthyIffMembers | packages/valory/skills/registration_abci/behaviours.py:256-267 | `set()` raises exactly for a number or null; otherwise the value is truthy exactly when the set is non-empty, and a text iterates to its characters |
| Registration.Seeds | packages/valory/skills/registration_abci/behaviours.py:210 | `list(value.values())` succeeds exactly for a table, giving its seeds; any other value raises `AttributeError` |
| Registration.GetAddresses | packages/valory/skills/registration_abci/behaviours.py:136-173 | `get_addresses` makes only the verification and service-info calls. Unless it succeeds it leaves the data alone; on success `registered_addresses` is a table holding the agent |
| Registration.GetAddressesRaises | packages/valory/skills/registration_abci/behaviours.py:136-151 | `get_addresses` raises exactly when no registry address is configured (before any call) or the service info has no agent instances |
| Registration.GetAddressesOutcome | packages/valory/skills/registration_abci/behaviours.py:142-173 | without an error, `get_addresses` succeeds exactly when the contract is verified, the info holds instances and the agent is among them. On failure the data are untouched. On success `registered_addresses` becomes a table of exactly the instances, the agent's own URL and none for the others, and nothing else changes |
| Registration.UpdateSucceeded | packages/valory/skills/registration_abci/behaviours.py:205-222 | the configuration update succeeds exactly when the reply's status is 200, raises exactly when the reply has no status, and fails on a malformed reply |
| Registration.StartSucceeded | packages/valory/skills/registration_abci/behaviours.py:224-243 | `start_tendermint` succeeds exactly on status 200; `ConfigureStart` and `FailedStartSleepsTwice` state the sleeps of its failures |
| Registration.SeededParams | packages/valory/skills/registration_abci/behaviours.py:208-211 | the held parameters with `p2p_seeds` written in from the table; `ConfigureKeeps` and `SubmissionSeeds` state what is posted and kept |
| Registration.Configure | packages/valory/skills/registration_abci/behaviours.py:271-283 | the update, start and submission stages; specified by `ConfigureKeeps`, `ConfigureCompletes` and `ConfigureStart` |
| Registration.Collect | packages/valory/skills/registration_abci/behaviours.py:262-269 | the peer requests and the wait for missing agents; specified by `CollectRaises`, `CollectWaits` and `CollectKeeps` |
| Registration.Register | packages/valory/skills/registration_abci/behaviours.py:255-260 | the registry stage: `get_addresses` only while `registered_addresses` is falsy; stated through `PrepareGoIff` and `RegistryGate` |
| Registration.Prepare | packages/valory/skills/registration_abci/behaviours.py:248-260 | the configuration and registry stages; specified by `PrepareGoIff`, `PrepareGoState`, `PrepareGoCalls` and `PrepareStopFacts` |
| Registration.Step | packages/valory/skills/registration_abci/behaviours.py:245-283 | one entry of `RegistrationStartupBehaviour.async_act`; its gates, requests, submission and retries are the lemmas below |
| Registration.ConfigureKeeps | packages/valory/skills/registration_abci/behaviours.py:205-215 | when `registered_addresses` is not a table, `.values()` raises `AttributeError` before anything is written or posted. Otherwise the last stages write `p2p_seeds` from the table into the held parameters, change nothing else, post those parameters first, and make no registry call |
| Registration.ConfigureCompletes | packages/valory/skills/registration_abci/behaviours.py:205-283 | the last stages submit exactly when `registered_addresses` is a table and the update and the start both reply with status 200, with the trace update, start, submission; a retry sleeps last and submits nothing |
| Registration.ConfigureStart | packages/valory/skills/registration_abci/behaviours.py:224-243 | the node is started only after the seeds were read from a table and the update succeeded; a failed start sleeps inside `start_tendermint` and again in the step |
| Registration.CollectRaises | packages/valory/skills/registration_abci/behaviours.py:263 | when `set()` cannot iterate `registered_addresses`, collecting raises `TypeError` at once, with no call and the state unchanged |
| Registration.CollectWaits | packages/valory/skills/registration_abci/behaviours.py:262-269 | when `set(registered_addresses)` succeeds and agents are not yet collected, the step asks exactly them, adds them to the outbox, sleeps and returns |
| Registration.CollectKeeps | packages/valory/skills/registration_abci/behaviours.py:262-283 | collecting and what follows change neither the initial data nor what was collected, and make no configuration or registry call |
| Registration.PrepareGoIff | packages/valory/skills/registration_abci/behaviours.py:248-260 | the step reaches collecting exactly when a configuration is held or fetched, and `registered_addresses` is truthy or `get_addresses` succeeds |
| Registration.PrepareGoState | packages/valory/skills/registration_abci/behaviours.py:248-260 | collecting starts with a held configuration and a truthy `registered_addresses`, a fresh table when it was falsy. A held non-empty configuration and a truthy value are kept, and nothing collected or sent is changed |
| Registration.PrepareGoCalls | packages/valory/skills/registration_abci/behaviours.py:248-260 | before collecting, the step makes only configuration and registry calls. The fetch happens, first, exactly when no configuration is held; registry calls happen only while `registered_addresses` is falsy |
| Registration.PrepareStopFacts | packages/valory/skills/registration_abci/behaviours.py:248-260 | a step that stops in the first two stages does not submit. It makes only configuration, registry and sleep calls, sleeps last on a retry, keeps the data, what was collected and the outbox, and calls the registry only while `registered_addresses` is falsy |
| Registration.StepOfGo | packages/valory/skills/registration_abci/behaviours.py:245-283 | a step that reaches collecting is the calls made so far followed by collecting from the state reached |
| Registration.UniterableStep | packages/valory/skills/registration_abci/behaviours.py:255-264 | a step that reaches collecting with a number as `registered_addresses` raises `TypeError` after the calls made so far, asking no peer |
| Registration.WaitingStep | packages/valory/skills/registration_abci/behaviours.py:262-269 | a step that finds agents not yet collected asks exactly them, sleeps and returns, changing only the outbox |
| Registration.ConfiguredStep | packages/valory/skills/registration_abci/behaviours.py:266-283 | a step that has collected every registered agent goes on to the update, start and submission stages |
| Registration.ConfigGate | packages/valory/skills/registration_abci/behaviours.py:248-253 | the configuration is fetched, as the first call, exactly when none is held; a failed fetch sleeps and returns with the state unchanged |
| Registration.RegistryGate | packages/valory/skills/registration_abci/behaviours.py:255-260 | the registry is queried only while `registered_addresses` is falsy (`not self.registered_addresses`) |
| Registration.CollectionAsksMissing | packages/valory/skills/registration_abci/behaviours.py:262-269 | a step never records a peer's address, and asks no one when `set()` cannot iterate `registered_addresses`. Otherwise every peer request asks exactly the members of that set not yet collected; it does ask them (then sleeps and returns) when it reaches collecting and some are missing; and the outbox grows by them exactly when they are asked |
| Registration.StoppedAsksNone | packages/valory/skills/registration_abci/behaviours.py:248-260 | a step that stops before collecting asks no peer |
| Registration.UniterableAsksNone | packages/valory/skills/registration_abci/behaviours.py:263-264 | a step whose `registered_addresses` cannot be iterated asks no peer |
| Registration.WaitingAsksMissing | packages/valory/skills/registration_abci/behaviours.py:262-269 | a step that reaches collecting with agents missing asks exactly those agents |
| Registration.CollectedAsksNone | packages/valory/skills/registration_abci/behaviours.py:262-269 | a step that reaches collecting with every agent collected asks no peer |
| Registration.CollectionGate | packages/valory/skills/registration_abci/behaviours.py:262-273 | the configuration is posted only when `registered_addresses` is a table whose every agent has been collected, and then no peer is asked |
| Registration.WaitingPostsNothing | packages/valory/skills/registration_abci/behaviours.py:265-269 | while agents are missing, the step posts no configuration |
| Registration.CollectedPosts | packages/valory/skills/registration_abci/behaviours.py:266-273 | with every member collected, any configuration the step posts finds `registered_addresses` a table whose every agent was collected, and it asks no peer |
| Registration.SubmitOnlyAfterAllGates | packages/valory/skills/registration_abci/behaviours.py:245-283 | the payload is submitted exactly when every gate passes: a configuration held or fetched, `registered_addresses` truthy or read from the registry, that value a table whose every agent was collected, and update and start both replying with status 200 |
| Registration.SubmissionEndsStep | packages/valory/skills/registration_abci/behaviours.py:271-283 | a submitting step ends with the update of the parameters it keeps, the start and the agent's submission, and sleeps nowhere |
| Registration.ConfiguredSubmission | packages/valory/skills/registration_abci/behaviours.py:271-283 | the same, for a step that reaches the last stages |
| Registration.SubmissionSeeds | packages/valory/skills/registration_abci/behaviours.py:205-210 | a submitting step keeps the held parameters with `p2p_seeds` set to the seeds of the `registered_addresses` table, and no other new key |
| Registration.RetrySleepsLast | packages/valory/skills/registration_abci/behaviours.py:245-283 | a step that does not finish sleeps last and submits nothing |
| Registration.ConfiguredRetry | packages/valory/skills/registration_abci/behaviours.py:271-281 | the same, for a step that retries in the last stages |
| Registration.FailedStartSleepsTwice | packages/valory/skills/registration_abci/behaviours.py:224-283 | a failed node start ends the step with start, sleep, sleep: once in `start_tendermint` and once in the step |
| Registration.ConfiguredFailedStart | packages/valory/skills/registration_abci/behaviours.py:224-283 | the same, for a step that reaches the last stages |
| Registration.TextAddressesAskCharacters | packages/valory/skills/registration_abci/behaviours.py:256-269 | with a configuration held and `registered_addresses` the text `"ab"`, the step skips the registry, asks `a` and `b`, sleeps and returns |
| Registration.NumberAddressesRaise | packages/valory/skills/registration_abci/behaviours.py:256-263 | with a configuration held and `registered_addresses` the number 5, the step skips the registry and raises `TypeError`, with no call |
| Registration.ReentrySkipsFinishedGates | packages/valory/skills/registration_abci/behaviours.py:245-260 | re-entry does not repeat finished work. A held configuration and a truthy `registered_addresses` are kept by every step. While they are held, the next step neither fetches the configuration nor calls the registry |
| Registration.RegistrationStartupBehaviour.constructor | packages/valory/skills/registration_abci/behaviours.py:86-92 | a new behaviour holds no configuration, nothing collected and an empty outbox |
| Registration.RegistrationStartupBehaviour.RequestPeers | packages/valory/skills/registration_abci/behaviours.py:175-188 | one Tendermint request to each address, appended after the requests already sent; nothing else changes |
| Registration.RegistrationStartupBehaviour.ConfigureAndStart | packages/valory/skills/registration_abci/behaviours.py:271-283 | the update, start and submission stages do what `Configure` specifies, state and trace alike |
| Registration.RegistrationStartupBehaviour.CollectAndConfigure | packages/valory/skills/registration_abci/behaviours.py:262-283 | requesting the missing peers and the stages after it do what `Collect` specifies |
| Registration.RegistrationStartupBehaviour.GetAddressesStep | packages/valory/skills/registration_abci/behaviours.py:136-173 | `get_addresses` on the object makes the calls, returns the result and writes the data that `GetAddresses` specifies |
| Registration.RegistrationStartupBehaviour.RegisterStep | packages/valory/skills/registration_abci/behaviours.py:255-260 | the registry stage does what `Register` specifies, and the object holds the state it reports |
| Registration.RegistrationStartupBehaviour.GetTendermintConfiguration | packages/valory/skills/registration_abci/behaviours.py:190-203 | the fetch succeeds exactly when the reply decodes. It then stores the decoded parameters and changes nothing else; a malformed reply changes nothing |
| Registration.RegistrationStartupBehaviour.AsyncAct | packages/valory/skills/registration_abci/behaviours.py:245-283 | one entry of `async_act` leaves the object in the state, with the calls and the outcome, that `Step` specifies |
| AnalyseHandlers.RelativeTo | autonomy/analyse/abci/handlers.py:35-37 | `relative_to` succeeds exactly when the base is a prefix of the path, and gives the rest of it; otherwise it raises |
| AnalyseHandlers.ModuleName | autonomy/analyse/abci/handlers.py:38 | the dotted module name of a relative handler path; `StripPy`, `SlashesToDots` and `ModuleNameOfPackage` state what it gives |
| AnalyseHandlers.CheckHandlers | autonomy/analyse/abci/handlers.py:30-60 | `check_handlers` in its order of tests; specified by `SkippedSkillPasses`, `PathCheckedFirst`, `CheckHandlersPasses` and `CommonHandlersFirst` |
| AnalyseHandlers.FirstMissing | autonomy/analyse/abci/handlers.py:50-54 | none exactly when every common handler is declared; otherwise an undeclared one |
| AnalyseHandlers.FirstMissingIsFirst | autonomy/analyse/abci/handlers.py:50-54 | the common handler reported is the first missing one in list order |
| AnalyseHandlers.CheckClasses | autonomy/analyse/abci/handlers.py:56-60 | the class loop fails only for an entry without a class name or whose class is not in the module |
| AnalyseHandlers.CheckClassesPasses | autonomy/analyse/abci/handlers.py:56-60 | the class loop passes exactly when every declared handler names a class the module defines |
| AnalyseHandlers.SkippedSkillPasses | autonomy/analyse/abci/handlers.py:35-40 | a skipped skill passes whatever its module and configuration, exactly when its handler path is below the working directory |
| AnalyseHandlers.PathCheckedFirst | autonomy/analyse/abci/handlers.py:35-40 | the path is computed before the skip test, so a skill outside the working directory fails even when skipped |
| AnalyseHandlers.CheckHandlersPasses | autonomy/analyse/abci/handlers.py:30-60 | a skill that is not skipped passes exactly when four things hold: its path is below the working directory; the module imports; the configuration has `handlers`; and every common handler is declared and every declared class defined |
| AnalyseHandlers.CommonHandlersFirst | autonomy/analyse/abci/handlers.py:48-60 | when a common handler is missing, the error names the first missing one, whatever the classes are |
| AnalyseHandlers.StripPy | autonomy/analyse/abci/handlers.py:38 | removing `.py` from a path whose directories hold no `.py` removes only the file's suffix |
| AnalyseHandlers.SlashesToDots | autonomy/analyse/abci/handlers.py:38 | turning `/` into `.` in a `/`-joined list of names without `/` gives the `.`-joined list |
| AnalyseHandlers.ModuleNameOfPackage | autonomy/analyse/abci/handlers.py:38 | for package directories without `/` or `.py` in their names, the module name is the directories and `handlers`, joined by dots |
| AnalyseHandlers.HandlerFileBelowCwd | autonomy/analyse/abci/handlers.py:35-37 | the handler file of a configuration below the working directory has, relative to it, the skill's directories followed by `handlers.py` |
| AnalyseLogs.Dedup | autonomy/cli/helpers/analyse.py:109-112 | the keys of a dict built from a list: each element once, and exactly those elements |
| AnalyseLogs.KeysPut | autonomy/cli/helpers/analyse.py:152 | `d[k] = v` keeps the keys and their order when `k` is present and appends it otherwise; every entry is an old one or the new one |
| AnalyseLogs.Converted | autonomy/cli/helpers/analyse.py:88-89 | value, file-not-found and import errors become a `ClickException` carrying their text; any other error passes unchanged |
| AnalyseLogs.DialoguesRun | autonomy/cli/helpers/analyse.py:78-87 | the loop over the skill files; specified by `DialoguesRunStops`, `DialoguesRunPasses`, `DialoguesRunEcho` and `DialoguesRunFirstFailure` |
| AnalyseLogs.DialoguesCheck | autonomy/cli/helpers/analyse.py:68-89 | `run_dialogues_check`; specified by `DialoguesCheckOutcome` |
| AnalyseLogs.DialoguesRunStops | autonomy/cli/helpers/analyse.py:78-87 | once a check has raised, later files change neither the output nor the failure |
| AnalyseLogs.DialoguesRunPasses | autonomy/cli/helpers/analyse.py:78-87 | the loop raises exactly when some skill that is not ignored fails its check |
| AnalyseLogs.DialoguesRunEcho | autonomy/cli/helpers/analyse.py:78-83 | a loop that does not raise prints one line per file, in order: `Skipping <name>` for an ignored skill, `Checking <name>` otherwise |
| AnalyseLogs.DialoguesRunFirstFailure | autonomy/cli/helpers/analyse.py:78-87 | a raising loop reports the first failing skill that is not ignored. Its output ends with the line saying it checked that skill, and every earlier skill that was checked passed |
| AnalyseLogs.DialoguesCheckOutcome | autonomy/cli/helpers/analyse.py:68-89 | the command passes exactly when the package tree loads and every skill not ignored passes (ignored skills are never checked). A `ClickException` carries the text of a caught load or check error; an uncaught error is of another kind |
| AnalyseLogs.RunDialoguesCheck | autonomy/cli/helpers/analyse.py:68-89 | the loop prints and raises what `DialoguesCheck` specifies |
| AnalyseLogs.ExitLinesInOrder | autonomy/cli/helpers/analyse.py:177-180 | the exit lines of an agent's path are exactly the exit-round matches of its rows, in log order |
| AnalyseLogs.RowsPath | autonomy/cli/helpers/analyse.py:169-180 | the lines printed for an agent's rows from a given period; `HeadersAtChanges`, `ExitLinesInOrder` and `RowsPathLines` state them |
| AnalyseLogs.AgentPath | autonomy/cli/helpers/analyse.py:166-181 | one agent's execution path; `AgentPathFrame` states its frame |
| AnalyseLogs.Paths | autonomy/cli/helpers/analyse.py:164-181 | the execution paths of all results; `PathsNameEveryAgent` states which agents they name |
| AnalyseLogs.HeadersAtChanges | autonomy/cli/helpers/analyse.py:167-175 | the period headers of an agent's path are exactly the changes of the entered periods |
| AnalyseLogs.ChangesShape | autonomy/cli/helpers/analyse.py:167-175 | no two neighbouring headers are equal; the first differs from the period before; each header is an entered period; every entered period other than the one before gets a header |
| AnalyseLogs.OnePeriodOneHeader | autonomy/cli/helpers/analyse.py:170-175 | rounds entered in one new period give exactly one header |
| AnalyseLogs.SameRunNoHeader | autonomy/cli/helpers/analyse.py:173-175 | rounds entered in the period already shown give no header |
| AnalyseLogs.RowsPathLines | autonomy/cli/helpers/analyse.py:169-180 | the lines for an agent's rows are only period headers and exit lines |
| AnalyseLogs.AgentPathFrame | autonomy/cli/helpers/analyse.py:166-181 | an agent's path opens with `Agent <agent>`, closes with `\|_ End`, and holds neither in between |
| AnalyseLogs.PathsNameEveryAgent | autonomy/cli/helpers/analyse.py:166-168 | the execution path names every agent of the results once, in the order of the results |
| AnalyseLogs.TableBlockLines | autonomy/cli/helpers/analyse.py:186-190 | an agent's table is its header, one `[ts][level] message` line per row in order, and the footer |
| AnalyseLogs.TableRowsIndex | autonomy/cli/helpers/analyse.py:188-189 | one printed line per row, the `i`-th for the `i`-th row |
| AnalyseLogs.Tables | autonomy/cli/helpers/analyse.py:183-190 | the lines `table` prints; `TableBlockLines` and `TableRowsIndex` state them |
| AnalyseLogs.CreateCalls | autonomy/cli/helpers/analyse.py:119-128 | the `create_agent_db` calls of `create_tables`; specified by `CreateCallsIff` and `CreateTablesIdempotent` |
| AnalyseLogs.CreateCallsIff | autonomy/cli/helpers/analyse.py:119-128 | `create_agent_db` is called for an agent exactly when its database does not exist or a reset is asked for, and with that reset flag |
| AnalyseLogs.CreateTablesIdempotent | autonomy/cli/helpers/analyse.py:119-122 | once every database exists, creating the tables without a reset creates none |
| AnalyseLogs.ParseTime | autonomy/cli/helpers/analyse.py:144-148 | a bound is parsed only when it is given, and an unparsable bound raises naming its text |
| AnalyseLogs.Gather | autonomy/cli/helpers/analyse.py:150-159 | the per-agent selection loop of `select`; specified by `GatherSucceeds`, `GatherContents`, `GatherUnknown` and `GatherFailureStays` |
| AnalyseLogs.SelectResults | autonomy/cli/helpers/analyse.py:132-162 | `select`: the bounds parsed, then the agents gathered; `ParseLogs.Select` is proved against it |
| AnalyseLogs.GatherSucceeds | autonomy/cli/helpers/analyse.py:151-152 | gathering succeeds exactly when every requested agent has a database |
| AnalyseLogs.GatherContents | autonomy/cli/helpers/analyse.py:150-159 | the results list every distinct requested agent once, in the order first requested, each with its selected rows |
| AnalyseLogs.GatherUnknown | autonomy/cli/helpers/analyse.py:151-152 | a failed gathering names a requested agent without a database |
| AnalyseLogs.GatherFailureStays | autonomy/cli/helpers/analyse.py:151-152 | once an agent is unknown, later agents change nothing |
| AnalyseLogs.ParseLogs.FromDir | autonomy/cli/helpers/analyse.py:104-114 | one database per distinct agent of the collection, in its order; nothing created or selected yet |
| AnalyseLogs.ParseLogs.CreateTables | autonomy/cli/helpers/analyse.py:116-130 | `create_tables` makes exactly the calls of `CreateCalls`, after which every agent's database exists; the results are unchanged |
| AnalyseLogs.ParseLogs.Select | autonomy/cli/helpers/analyse.py:132-162 | `select` fails exactly when `SelectResults` does: a bad bound, or an agent without a database. The results are then unchanged; on success they become the gathered results |
| AnalyseLogs.ParseLogs.ExecutionPath | autonomy/cli/helpers/analyse.py:164-181 | the loop prints the lines of `Paths` for the results |
| AnalyseLogs.ParseLogs.Table | autonomy/cli/helpers/analyse.py:183-190 | the loops print the lines of `Tables` for the results |
| AnalyseLogs.AgentPathOf | autonomy/cli/helpers/analyse.py:166-181 | the inner loop, with its `period` variable, prints the path `AgentPath` specifies for one agent |

## Left out

- Python set and dict iteration order is not modelled in two places.
  - The peer requests of a step are a set (`PeerRequests`), and the requests sent are counted as a multiset of counterparties.
  - `registered_addresses.values()` written as `p2p_seeds` is kept as the table itself (`PSeeds`).
- Registration.RegistrationStartupBehaviour.RequestPeers: states which counterparties are asked and how many requests are sent, not the order in which the set is iterated.
- The dialogues, nonces and callbacks behind `make_tendermint_request`, and the peer callback that fills `collected`, are left out. `collected` is an input of each step, and the model never records an address itself.
- `collected` is a class attribute in the source, shared by every instance. The model keeps it as a field of the one behaviour object.
- HTTP, the contract API, JSON decoding of replies, sleeping and the generator's suspension are left out. Each call's result is a field of `Env`; a sleep is a `Sleep` effect.
- `send_a2a_transaction`, `wait_until_round_end` and `set_done` of the base behaviour are one `SubmitRegistration` effect.
- `get_service_info` passes on the `verified` entry of the reply body as the service info. The model takes the resulting dictionary as an input (`ServiceInfo`) with three cases: empty, without `agent_instances`, or with them.
- `is_correct_contract` indexing a reply without `verified`, and JSON replies that are not objects, are not modelled. The model covers a missing `status` in the update reply.
- The JSON model covers the values `initial_data` holds here: null, text, integers and the address table. Floating point, lists, nested objects and string escaping are left out.
- Registration.Dumps: the initialisation is the JSON tree that `json.dumps` writes, with its members in sorted order, not the text itself. The `", "` and `": "` separators, the quoting of strings and the spelling of numbers are not modelled.
- The framework base classes are not part of this model. These are given the concrete definitions labelled ASSUMPTION in `rounds.dfy`:
  - the threshold arithmetic, the most voted payload and `is_majority_possible`;
  - `update` and `get_strict`;
  - the payload checks `ResetRound` inherits, modelled as the same two checks `ResetAndPauseRound` makes.
- The period count and the participant sets are kept apart from the key/value data of the period state. Passing a keyword to `update` both explicitly and through `**kwargs` is Python's `TypeError`, modelled as `DuplicateKeyword`.
- ResetPauseRounds.UniqueWinner: uniqueness is proved only for at most `|participants|` payloads. Both rounds accept any sender of `all_participants`, while the threshold counts `participants`. When `all_participants` is larger, two values can both reach the threshold (`ScenarioWiderEligibility`). `most_voted_payload` then picks one by the tie rule labelled ASSUMPTION.
- Wall-clock timeouts and the bridge that synthesises timeout events are left out; `event_to_timeout` is kept as constants only.
- `FinishedResetRound` is final but has no entry in the transition table, as in the source. `ROUND_TIMEOUT` has a timeout but no edge.
- Logging, benchmark tooling and the handler's `setup` and `teardown` are left out.
- The handler's `getattr` lookup is limited to the nine request handlers. A request type without a handler is ignored, like any other name. Other attributes of the handler object cannot be reached by an ABCI request type.
- The reply builders' use of the dialogue's `reply` is modelled by the reply body and the id of the message answered.
- `check_handlers` does not model these:
  - resolving the working directory, reading and parsing the YAML file, and errors of `open`;
  - `importlib.import_module`: the importable modules with their attribute names (`dir(module)`) are an input;
  - absolute paths, `..`, symlinks and the resolution of the working directory: a path is a list of components, and `relative_to` is a prefix test on those lists.
- The common-handler test is membership in the declared names.
- AnalyseHandlers.CheckHandlers: the `handlers` mapping is a list of entries in declaration order, and a name may repeat in it. A parsed YAML mapping cannot hold a repeated name, because the last duplicate wins. So with repeated names the class loop also checks entries Python never sees.
- The regular expressions of the log analysis are inputs (`Patterns`): each maps a message to its two groups. Also inputs: `strptime` (a partial function from text to an instant), the log database's `select` (a function of agent and query) and the log collection's agents.
- The initial period of `execution_path` is the integer -1, and the pattern yields a period as text. So the first enter-round message always prints a header, and the model represents the initial period as none.
- `LogRow`'s columns other than timestamp, level and message are left out; no rendering reads them.
- `create_agent_db` is assumed to create the agent's database, and the log database file and `load_package_tree` are left out. A failure of the package tree load is an input of `run_dialogues_check`, and the per-skill dialogue check is an input function.
- `run_dialogues_check` lists the skill files in sorted order. The model takes the list as given.
- Before the first `select`, `results` is unset in the source; the model starts it empty.
