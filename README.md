# ESGF PID messaging: connectivity check and node selection

This project models two parts of the `esgfpid` library in Dafny and proves
properties of them.

- **The pre-flight check** (`esgfpid/check.py`, module `RabbitCheck` in
  `check.dfy`). A `RabbitChecker` holds one current host and a pending list
  of fallback hosts. It tries the current host: first it connects, then it
  opens a channel.
  - Every failure is classified as an authentication failure, a closed
    connection, an absent or not-open connection, or a closed channel.
  - Each classified failure appends one diagnostic line that names the host.
  - After a failure, the next host is popped from the end of the pending list.
  - The loop stops at the first host that works, or when no host is left.
  - On total failure, the recorded lines get three header lines in front and a
    "PLEASE NOTIFY" trailer at the end.

  The broker client is a `Transport`: an oracle from host to `Outcome`. The
  failover loop is specified twice:
  - `Run` is a state machine over `Probing` states.
  - `Probe` is a closed form: the LIFO probing order `ProbeOrder`, cut at the
    first host that works (`FirstOk`).

  `RunIsProbe` proves the two agree. The method `IterateOverAllHosts` is
  proved to end in the state `Probe` gives for its start state.
- **Node selection** (`esgfpid/rabbit/nodemanager.py`, module `NodeManagement`
  in `nodemanager.dfy`). A `NodeManager` keeps a trusted list and an open list
  of nodes. A node is admitted only when its description has `username`,
  `password`, `host` and `exchange_name`.
  - `SetNextHost` takes from the trusted list before the open one.
  - It uses `pop()` when a list holds one node.
  - When a list holds several nodes, it picks one at a random index, modelled
    as a nondeterministic choice. It then removes the first occurrence of that
    node, as `list.remove` does.
  - When both lists are empty, it keeps the current node.

  The step is specified as the relation `SelectsNext` on `Pool` values. The
  lemmas prove the count, conservation and priority properties of that relation.

`wrappers.dfy` holds the `Option` type used for Python's `None`.

## Model

| member | source | states |
|---|---|---|
| RabbitCheck.CheckIfAnyUrlSpecifiedAsWritten | esgfpid/check.py:43-49 | the check as written: a missing fallback list raises TypeError; with a list present it passes exactly when some URL is given, and otherwise raises ArgumentError with the fixed message |
| RabbitCheck.CheckIfAnyUrlSpecified | esgfpid/check.py:43-49 | the corrected check passes exactly when at least one URL (preferred or fallback) is given; otherwise ArgumentError with the fixed message |
| RabbitCheck.CheckAgreesWhenListGiven | esgfpid/check.py:43-49 | the written and the corrected check agree whenever a fallback list is present |
| RabbitCheck.PreferredOnlyRaisesTypeError | esgfpid/check.py:44-46 | a preferred URL with no fallback list raises TypeError as written, but is accepted by the corrected check |
| RabbitCheck.FailureMessage | esgfpid/check.py:139-169 | no contract of its own: a failed attempt records the line of its kind, one each for authentication, closed connection, connection not open and channel. The exception handlers make that choice; the two lemmas that follow state its properties |
| RabbitCheck.FailureMessageNamesHost | esgfpid/check.py:199-217 | every per-host line starts with ` - host "<host>": ` |
| RabbitCheck.FailureMessageDeterminesKind | esgfpid/check.py:199-217 | two failure kinds on the same host give the same line only if they are the same kind (the text identifies the kind) |
| RabbitCheck.FailureLinesComeFromFailures | esgfpid/check.py:156-169 | every recorded line is the failure line of some host of the list that failed, so no line appears without a failed attempt behind it |
| RabbitCheck.FailureLinesAllFail | esgfpid/check.py:156-169 | when every host of a list fails, there is one line per host, the i-th one being that host's failure line |
| RabbitCheck.Insert | esgfpid/check.py:194-196 | Python's `list.insert` at a non-negative index: one longer, `x` at the clamped index, the rest unchanged on both sides |
| RabbitCheck.ProbeOrder | esgfpid/check.py:126-127 | hosts are visited current first, then the pending list from its last element to its first |
| RabbitCheck.ProbeOrderPop | esgfpid/check.py:126-127 | popping the last pending host and making it current leaves the rest of the visiting order unchanged |
| RabbitCheck.Run | esgfpid/check.py:85-119 | no contract of its own: the `while True` loop as a state machine, one attempt per step (stop on success; on failure record the line, then pop the next host or stop). It is the loop invariant of `IterateOverAllHosts` and equals `Probe` by `RunIsProbe` |
| RabbitCheck.RunIsProbe | esgfpid/check.py:85-119 | the state machine of the loop equals the closed form, for every start state and every transport |
| RabbitCheck.ProbeAfterRetry | esgfpid/check.py:110-118 | one failed attempt followed by a pop leaves the eventual outcome unchanged |
| RabbitCheck.StopsAtFirstOk | esgfpid/check.py:104-108 | if the n-th host of the order is the first that works, the loop succeeds there: that host is current, n hosts were used up, the lines are those of the n failed hosts, and n+1 hosts were tried |
| RabbitCheck.TotalFailure | esgfpid/check.py:110-118 | if every host fails, the loop fails. Every host is tried in LIFO order with one line each, 1 + the pending length in all, and those lines follow the lines recorded before. The pending list ends empty, and the last host tried is the first one of the pending list |
| RabbitCheck.SucceedsIffSomeHostWorks | esgfpid/check.py:85-119 | the loop succeeds exactly when some host of the current host and pending list works |
| RabbitCheck.LifoOrderExample | esgfpid/check.py:126-127 | with fallback [A, B, C] after the first host, the order is the first host, then C, B, A |
| RabbitCheck.ChannelLineExample | esgfpid/check.py:199-201 | the channel-failure line for host h1 is exactly ` - host "h1": Channel failure.` |
| RabbitCheck.AuthThenSuccessExample | esgfpid/check.py:85-119 | hostA fails to authenticate and hostB works. The loop succeeds on hostB with hostA's authentication line as its only line, and both hosts were tried |
| RabbitCheck.RabbitChecker.constructor | esgfpid/check.py:61-67 | credentials, current host and pending list are those given; no line is recorded yet |
| RabbitCheck.RabbitChecker.IsUrlLeft | esgfpid/check.py:121-124 | true exactly when the pending list is non-empty |
| RabbitCheck.RabbitChecker.SetNextUrl | esgfpid/check.py:126-127 | the last pending host becomes current and is removed from the pending list |
| RabbitCheck.RabbitChecker.AddErrorMessageChannelClosed | esgfpid/check.py:199-201 | appends exactly the channel-failure line for the current host |
| RabbitCheck.RabbitChecker.AddErrorMessageAuthenticationError | esgfpid/check.py:203-209 | appends exactly the authentication line with host, user name and password |
| RabbitCheck.RabbitChecker.AddErrorMessageConnectionClosed | esgfpid/check.py:211-213 | appends exactly the connection-failure line for the current host |
| RabbitCheck.RabbitChecker.AddErrorMessageConnectionProblem | esgfpid/check.py:215-217 | appends exactly the unknown-connection-failure line for the current host |
| RabbitCheck.RabbitChecker.AddErrorMessageGeneral | esgfpid/check.py:193-197 | the lines become the three header lines, then the old lines unchanged and in order, then the trailer |
| RabbitCheck.RabbitChecker.CheckMakingRabbitConnection | esgfpid/check.py:151-172 | no connection exactly for an authentication failure, a closed connection, or an absent/not-open one, with the matching line appended; otherwise a connection and no line |
| RabbitCheck.RabbitChecker.CheckOpeningChannel | esgfpid/check.py:133-144 | the channel opens exactly when the connection allows it; otherwise the channel-failure line is appended |
| RabbitCheck.RabbitChecker.TryCurrentHost | esgfpid/check.py:96-108 | success exactly when the transport says the host works; on failure exactly one line, that of the failure kind seen |
| RabbitCheck.RabbitChecker.IterateOverAllHosts | esgfpid/check.py:85-119 | the loop ends in the closed-form state: verdict, current host, remaining pending list, recorded lines and tried hosts as `Probe` gives them |
| RabbitCheck.RabbitChecker.AssembleAndPrintErrorMessage | esgfpid/check.py:223-226 | the report is the framed list: header, lines, trailer |
| RabbitCheck.RabbitChecker.CheckAndInform | esgfpid/check.py:74-83 | returns exactly the loop's verdict; the header and trailer are added only when it fails |
| RabbitCheck.CheckPidQueueAvailability | esgfpid/check.py:12-14 | with no URL it raises ArgumentError before any host is tried. Otherwise a warning is logged exactly when every host fails, and it is the framed list of per-host lines |
| NodeManagement.HasNecessaryInfo | esgfpid/rabbit/nodemanager.py:42-49 | a plain definition: true exactly when `username`, `password`, `host` and `exchange_name` are all keys of the description |
| NodeManagement.CompleteInfo | esgfpid/rabbit/nodemanager.py:52-79 | the admitted node keeps its description and gets parameters built from its host, user name and password |
| NodeManagement.RemoveFirst | esgfpid/rabbit/nodemanager.py:126 | `list.remove`: when the element occurs, one shorter and one occurrence fewer as a multiset; otherwise unchanged |
| NodeManagement.RemoveFirstSplices | esgfpid/rabbit/nodemanager.py:126 | the removal cuts out the first occurrence and keeps everything else in order |
| NodeManagement.SelectAndRemoveRandomUrlFromList | esgfpid/rabbit/nodemanager.py:122-127 | the selected node is in the list; the rest is the list with its first occurrence removed, one shorter, with the same nodes otherwise |
| NodeManagement.SelectsNext | esgfpid/rabbit/nodemanager.py:94-115 | the selection step as a relation: a trusted node is taken while one is left, else an open one, the other list unchanged; with both empty the pool keeps its current node and nothing changes. Its properties are the lemmas that follow |
| NodeManagement.TakenFromRemovesOne | esgfpid/rabbit/nodemanager.py:96-110 | taking a node from a non-empty list by `pop()` or removal: the node was in it, the list is one shorter, no other node is lost |
| NodeManagement.SelectionLowersCount | esgfpid/rabbit/nodemanager.py:94-115 | when a node is left, one selection lowers the number of nodes left by exactly one |
| NodeManagement.SelectionConservesNodes | esgfpid/rabbit/nodemanager.py:94-115 | the selected node plus the nodes left is exactly the multiset of nodes held before |
| NodeManagement.TrustedBeforeOpen | esgfpid/rabbit/nodemanager.py:96-102 | while a trusted node is left, the new current node is a trusted one and the open list is untouched |
| NodeManagement.OpenWhenNoTrusted | esgfpid/rabbit/nodemanager.py:104-110 | with no trusted node left, the new current node comes from the open list and the trusted list is untouched |
| NodeManagement.SelectionKeepsNodesWellFormed | esgfpid/rabbit/nodemanager.py:94-115 | selection keeps every held node, and the new current one, well formed |
| NodeManagement.NodeManager.constructor | esgfpid/rabbit/nodemanager.py:13-26 | both lists empty, no current node |
| NodeManagement.NodeManager.AddTrustedNode | esgfpid/rabbit/nodemanager.py:28-33 | appends exactly the completed node to the trusted list if the description has the four keys, otherwise leaves it unchanged; the open list is untouched |
| NodeManagement.NodeManager.AddOpenNode | esgfpid/rabbit/nodemanager.py:35-40 | appends exactly the completed node to the open list if the description has the four keys, otherwise leaves it unchanged; the trusted list is untouched |
| NodeManagement.NodeManager.GetNumLeftUrls | esgfpid/rabbit/nodemanager.py:91-92 | the number of trusted plus open nodes |
| NodeManagement.NodeManager.HasMoreUrls | esgfpid/rabbit/nodemanager.py:86-89 | true exactly when some trusted or open node is left |
| NodeManagement.NodeManager.SetNextHost | esgfpid/rabbit/nodemanager.py:94-115 | raises (ok false, nothing changed) exactly when both lists are empty and there is no current node. Otherwise the step is `SelectsNext`, and the exchange name is the new current node's |
| NodeManagement.NodeManager.GetConnectionParameters | esgfpid/rabbit/nodemanager.py:81-84 | with a current node, nothing changes and its parameters are returned. Without one, a node is selected first and its parameters returned; none is returned when no node is left |
| NodeManagement.NodeManager.GetExchangeName | esgfpid/rabbit/nodemanager.py:129-130 | a name exactly when a node has been selected, and then it is the current node's `exchange_name` |

## Left out

- Broker calls: pika's `BlockingConnection`, `channel()`, `confirm_delivery()`, `PlainCredentials`, `ConnectionParameters` and `BasicProperties` are foreign library calls. They are replaced by the `Transport` oracle and by plain parameter values.
- The transport answers one fixed outcome per host, so a host that appears twice in the pending list fails or works the same way both times. Timing and retries inside pika are not modelled. An exception that is neither one of the four classified failures nor a `ValueError` would propagate out of the loop; the model has no such outcome.
- A `ValueError` raised inside the attempt (check.py:90-108) by the broker library itself is not modelled. This covers `BlockingConnection`, `channel()` and `confirm_delivery()`, and the `except ValueError` at check.py:110 catches it like the classified failures. Such a host is skipped with no diagnostic line, so the source can fail over silently; in the model every failure leaves a line.
- A `ValueError` from `connection.close()` (check.py:107) is not modelled. It is raised after `success = True` (check.py:105), so the source goes on to the next host with `success` already set. It can then end with `success` true after recording failure lines for later hosts. In the model a working host always ends the loop.
- `connection.close()` after a success (check.py:107) is not modelled. Neither is the leak of the connection after a channel failure, which the source never closes.
- Logging, console printing and the `print_conn`/`print_chan` flags of the loop are output plumbing only. The report is the list of lines; `utils.format_error_message`, which joins them into one string, is not part of this model.
- URL normalisation (`rabbitutils.ensure_urls_are_a_list`, `set_preferred_url`) is not part of this model. `CheckPidQueueAvailability` takes it as the `normalise` parameter, which yields the current host and the pending list.
- The argument helpers `check_presence_of_mandatory_args` and `add_missing_optional_args_with_value_none` are not part of this model. The user name and password are plain parameters, and missing optional arguments are `None`.
- `print_to_console` is left out; it only decides whether the warning is also printed.
- RabbitCheck.CheckPidQueueAvailability: it uses the corrected URL check (see Findings), not the one as written.
- `random.randint` is a nondeterministic index choice. `copy.deepcopy` is not needed, since nodes are immutable values.
- Node descriptions are `map<string, string>`; Python allows values of any type.
- NodeManagement.CompleteInfo: the pika parameters carry only host, user name and password. Socket timeout, connection attempts and retry delay come from `esgfpid.defaults` and are left out.
- `get_properties_for_message_publications` is left out; it returns the same pika `BasicProperties` object whatever the node.
- NodeManagement.NodeManager.GetExchangeName: the AttributeError raised before any selection is modelled as `None`.
- NodeManagement.NodeManager.GetConnectionParameters: the TypeError of a selection with no node at all is modelled as `None`.
- RabbitCheck.RabbitChecker.SetNextUrl and NodeManagement.SelectAndRemoveRandomUrlFromList require a non-empty list. The source calls them only then; on an empty list Python would raise IndexError or ValueError.

## Findings

| source | as written | input that shows it | evidently intended | confidence | as-written member | corrected member |
|---|---|---|---|---|---|---|
| esgfpid/check.py:45-47 | `len(args['messaging_service_urls'])` is evaluated even when that argument is `None`, so the `is not None` test on the line before never protects it | a preferred URL given and no fallback list (`messaging_service_urls` missing, so set to `None`): `len(None)` raises TypeError | a preferred URL alone is enough; the length is taken only when the list is given | not executed | RabbitCheck.CheckIfAnyUrlSpecifiedAsWritten (shown by RabbitCheck.PreferredOnlyRaisesTypeError) | RabbitCheck.CheckIfAnyUrlSpecified |
