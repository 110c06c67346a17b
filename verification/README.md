# Verified models of the account data access and of the audit checker

This project models four parts of the repository and proves what they promise.

**Eager loading of accounts** (`Store`, `QueryBuilder`, `EagerTree`, `Database`, `Batch`, `JoinStream`, `Redistribute`,
`Loader`, `AccountSchema`, `EdgeLaws`, `BatchLimit`). A query for accounts may ask for any of six edges, and each edge has a
query of its own that may ask for more. The code runs one query per edge for all nodes together and hands the neighbours
back through hash maps. `EagerTree.Lookup` is the simple meaning: one lookup per row and edge, recursively. `Loader.All`
builds a heap of mutable nodes, and `EagerTree.ViewIsLookup` shows that reading this heap gives exactly the tree of the
simple lookups, to any depth of nesting; it also fails exactly when a simple lookup would fail. The database is a set of
rows per table. It answers a query with the rows that satisfy the predicates, in any order, and a join with any repetition.
An interceptor's filter is one more predicate of a sub-query. There is one load per shape of edge (foreign key on the owner,
foreign key on the target, join table); the six edges of an account are values of it.

**Decoding and creating accounts** (`AccountEntity`, `AccountCreate`, `AccountKeys`). Columns are an enumeration, a row maps columns to
cells, and an entity maps columns to field values; an absent field is a nil pointer or a nil map. Decoding any selection of
columns is a projection of the row, and the row written by a create decodes to the
entity that the create returned. `AccountKeys` joins this to the loader: the keys that a load uses are those in the fields of
the decoded entity.

**Bulk creation** (`BulkCreate`). Builder after builder is wrapped by its hooks and calls the next one from inside itself;
only the last one issues the batch. The class keeps a ghost trace of events, and the theorems are about all traces, for any
number of builders, any database answer, and any hooks that either return by themselves, with an error or without, or edit the
mutation and call the next mutator once with it and then return whatever they like.

**Updating accounts** (`EdgeOps`, `AccountUpdate`). The setters record what should happen to each edge, the two update
builders compile the record into deltas, and executing the deltas changes the edge. The results say exactly which sequences
of setter calls do what they say.

**The audit checker** (`AuditParser`, `AuditVerdict`). The parser of the exceptions file is inverted by a printer, and the exit
status of the checker equals a quantified statement about exceptions and findings. Lower-casing, date parsing, the printing of
numbers and the current day are parameters.

## Where the code does less than its names suggest

- A limit or an offset on the query of an edge applies to the whole batch and not to each parent. For a one-to-many edge, and
  for an edge over a join table, the batch agrees with per-parent lookups for every table exactly when there is neither, or at
  most one parent (`BatchLimit.ToManyAgreesIff`, `BatchLimit.JoinAgreesIff`). For a to-one edge the limit must have room for all
  keys, or the offset must skip them all (`BatchLimit.ToOneAgreesIff`).
- Hooks of a bulk create can turn an error into success, or report success without calling the next mutator. A save without
  error is certain to have inserted the batch exactly when, in a chain that reaches the batch, the hooks composed along the chain
  relay every error, and, in a chain that a hook or a check stops, those of the open calls make an error of what stopped it
  (`BulkCreate.SuccessIsRealIff`). A hook that swallows errors is harmless inside one that makes an error of everything
  (`BulkCreate.NotEveryHookRelays`). Which builders are marked as done, and when only for an inserted batch, is stated in the
  same way (`BulkCreate.MarkedIff`, `BulkCreate.MarkIsRealIff`), and so is when the marked builders form a suffix of the list
  (`BulkCreate.SuffixIff`). `BulkCreate.SwallowedError` and `BulkCreate.SilentStop` are inputs.
- Clearing a to-many edge keeps the ids that were added before, so adding and then clearing leaves the added ids on the edge
  (`EdgeOps.FaithfulIffNotStale`, with the input `EdgeOps.AddThenClear`).
- Clearing a to-one edge through the edge keeps a pending id, and each of the two reset calls resets only one of the two clear
  flags (`EdgeOps.FaithfulIffHandled`, with the inputs `EdgeOps.SetThenClear` and `EdgeOps.ClearThenReset`).
- The severity of an exception is compared with the first finding of its key only (`AuditVerdict.FirstFindingDecides`, with
  the input `AuditVerdict.HighHidesCritical`).

## Model

| member | source | states |
|---|---|---|
| EagerTree.ViewIsLookup | backend/ent/account_query.go:550-625 | The heap that a complete load leaves below a node, read along the requested edges, is the tree of one-by-one lookups of its row |
| EagerTree.OneMatch | backend/ent/account_query.go:688-751 | A many-to-one lookup has at most one result, because ids are primary keys |
| Loader.All | backend/ent/account_query.go:307-315 | One complete node per accepted row, each with all its edges at every depth; it fails exactly when a selected column is unknown somewhere a simple lookup would reach |
| Loader.PrepareQuery | backend/ent/account_query.go:524-548 | A query is refused exactly when a selected field is not a column of its table |
| Loader.SqlAll | backend/ent/account_query.go:550-625 | After the refusal check: every accepted row once, complete, and failure exactly when a lookup below some row fails |
| Loader.LoadEdges | backend/ent/account_query.go:577-625 | Freshly scanned nodes become complete; without nodes no edge is queried |
| Loader.EachEdge | backend/ent/account_query.go:580-623 | The requested edges are loaded one after the other; a later load leaves the earlier edges as they are |
| Loader.LoadShape | backend/ent/account_query.go:580-623 | Each load writes the slot of its own edge on the given nodes and nothing else |
| Loader.LoadM2O | backend/ent/account_query.go:688-751 | Every node ends with the neighbour its key names, nodes with the same key end with the same object, nil-key nodes stay without one, and the foreign-key error cannot occur |
| Loader.FetchByKey | backend/ent/account_query.go:688-738 | The batch answers the lookups of all nodes, each neighbour's id is one of the collected keys, and no two neighbours share an id |
| Loader.LoadO2M | backend/ent/account_query.go:752-845 | Every node's list is the part of the batch that joins it, in batch order, and covers exactly the joined rows; neither foreign-key error can occur |
| Loader.FetchByReference | backend/ent/account_query.go:762-772 | A projected neighbour query still reads the foreign key, and the batch is exactly the rows that reference one of the nodes |
| Loader.LoadM2M | backend/ent/account_query.go:627-687 | Every node's list is exactly its joined targets without repetition, in the order of the neighbours, for any repetition and interleaving in the join stream |
| Loader.FetchJoined | backend/ent/account_query.go:638-674 | The join, filtered by the sub-query's predicates and scanned through the id index, gives the batch and for each target the nodes that join it |
| Redistribute.QuerySpec | backend/ent/account_query.go:858-880 | The columns read are the id, the selected fields and the foreign keys of the requested to-one edges, or all columns; the id is first |
| Redistribute.ScanNodes | backend/ent/account_query.go:563-576 | One node per accepted row, with the requested edges recorded and none loaded |
| Redistribute.CollectKeys | backend/ent/account_query.go:689-701 | The queried keys are distinct, are exactly the non-nil foreign keys, and each maps to the nodes that hold it, in order |
| Redistribute.AssignOne | backend/ent/account_query.go:710-718 | Every node points to the neighbour whose id is its key, and to none if there is no such neighbour |
| Redistribute.IndexNodes | backend/ent/account_query.go:753-761 | The ids are indexed, each list starts empty, and nothing else is written |
| Redistribute.AssignMany | backend/ent/account_query.go:772-783 | Each neighbour is appended to the one node it references |
| Redistribute.ScanJoin | backend/ent/account_query.go:651-671 | The targets are the rows of the stream in order of first appearance, one object each, and each id maps to all owners in the stream |
| Redistribute.AssignOwned | backend/ent/account_query.go:677-685 | Each target is appended once to each of its owners |
| JoinStream.JoinScanned | backend/ent/account_query.go:651-671 | What the scan keeps of a join stream is the joint answer of the nodes' own lookups, and the owner sets are the join condition |
| JoinStream.ScanFacts | backend/ent/account_query.go:659-669 | A stream row opens a new target exactly when no earlier row had its id |
| Batch.BatchFails | backend/ent/account_query.go:627-845 | A batch fails exactly when the lookup of at least one of its nodes fails |
| Batch.KeysAsked | backend/ent/account_query.go:700-709 | The IN predicate over the collected keys selects exactly the rows that some node's lookup finds |
| Batch.ManyLoaded | backend/ent/account_query.go:752-783 | The part of a batch that joins a row is a complete load of that row's edge |
| Batch.EdgesStep | backend/ent/account_query.go:580-623 | Loading one more edge keeps the edges loaded before |
| QueryBuilder.Query.With | backend/ent/account_query.go:412-475 | Requesting an edge records its sub-query, and replaces an earlier request for the same edge |
| QueryBuilder.Query.AppendFieldOnce | backend/ent/account_query.go:762-764 | The foreign key joins the selected fields unless it is among them |
| QueryBuilder.PutWf | backend/ent/account_query.go:412-475 | There is at most one request per edge, whatever requests are made |
| QueryBuilder.PutReplaces | backend/ent/account_query.go:412-475 | A request is recorded, replaces an earlier one for the same edge, and leaves the others |
| AccountSchema.AccountPlanWf | backend/ent/account/account.go:85-166 | Any combination of the six edge requests of an account, in any order, is a plan that the loader handles |
| AccountSchema.GroupsJoin | backend/ent/account/account.go:168-171 | A group is joined to an account exactly by a row of `account_groups` whose `account_id` and `group_id` are the ids of the two |
| AccountSchema.KeysJoin | backend/ent/account/account.go:99-128 | The other five edges join on `proxy_id`, `parent_account_id`, `account_id` and the ids, in this direction |
| AccountSchema.EdgeTables | backend/ent/account/account.go:85-128 | The six edges lead from accounts to groups, proxies, accounts, accounts, usage logs and account groups |
| AccountSchema.ColumnNames | backend/ent/account/account.go:131-165 | The table lists the columns that an entity decodes, by their names and in the same order |
| EdgeLaws.AccessorTrichotomy | backend/ent/account.go:118-138 | A to-one accessor says not loaded exactly when the edge was not requested, not found exactly when its lookup is empty, and otherwise returns the joined row |
| EdgeLaws.ManyAccessor | backend/ent/account.go:109-165 | A to-many accessor fails exactly when the edge was not requested, and otherwise returns the joined rows |
| EdgeLaws.ProjectionInvariance | backend/ent/account_query.go:866-880 | Selecting columns, at the root or in any sub-query, leaves the loaded graph as it is |
| EdgeLaws.EdgesIndependent | backend/ent/account_query.go:580-623 | What is loaded for an edge depends on that request alone, not on other requests or on their order |
| EdgeLaws.ParentChildRows | backend/ent/account_query.go:720-784 | A row is among the children of another exactly when its parent key is the other's id, and exactly then the other is its parent |
| EdgeLaws.ChildrenConverse | backend/ent/account_query.go:720-784 | Loading children and then their parent leads from each child back to the row it came from |
| EdgeLaws.SharedNodes | backend/ent/account_query.go:659-684 | The lists that a load gives to two nodes share one object per neighbour id |
| BatchLimit.ShareIsJoined | backend/ent/account_query.go:688-784 | The share of a key in a batch is exactly the rows that its owner joins, by foreign key or by id |
| BatchLimit.ShareOfJoin | backend/ent/account_query.go:638-674 | The share of a key in the answer of a join is exactly the targets that its owner joins |
| BatchLimit.ToManyAgreesIff | backend/ent/account_query.go:752-784 | A batch over references agrees with the lookups of all its keys, on every table, exactly when it has no limit and no offset, or at most one key |
| BatchLimit.JoinAgreesIff | backend/ent/account_query.go:638-674 | A batch of a join, whose limit and offset count pairs of owner and target, agrees with the lookups of all its owners, for every answer, exactly under the same condition |
| BatchLimit.ToOneAgreesIff | backend/ent/account_query.go:688-751 | A batch over ids agrees with the lookups of all its keys, on every table, exactly when its limit has room for all keys, or its offset skips all of them |
| AccountEntity.KindsAgree | backend/ent/account.go:168-189 | Scanning allocates for each column name the type that assigning asserts, and both know exactly the columns of the table |
| AccountEntity.ColumnsComplete | backend/ent/account/account.go:131-165 | The table's column list is exactly the columns that the two switches know |
| AccountEntity.ScanValues | backend/ent/account.go:168-189 | One empty destination per column, of the column's type |
| AccountEntity.Account.AssignValues | backend/ent/account.go:193-417 | Columns are assigned in order up to the first error, which is a length mismatch, a type mismatch or malformed JSON; unknown columns among them end in the selected values with their last value |
| AccountEntity.OnlyJsonFails | backend/ent/account.go:193-417 | After a scan the only possible error is malformed JSON, for any column list |
| AccountEntity.ErrorIff | backend/ent/account.go:193-417 | A column is in error exactly when its destination has another type than a scan allocates, or when it is a JSON column with malformed text |
| AccountEntity.LastValueWins | backend/ent/account.go:193-417 | A scalar field ends as the last non-NULL occurrence of its column |
| AccountEntity.LastIDWins | backend/ent/account.go:199-204 | The id ends as its last occurrence even if that is NULL, and then it is zero |
| AccountEntity.JsonMerges | backend/ent/account.go:249-264 | A JSON object is merged into the map that is there, `null` clears it, and an empty value leaves it |
| AccountEntity.ZeroByKind | backend/ent/account.go:18-88 | In a new entity plain fields are the zero of their type and all others are nil |
| AccountEntity.NullKeeps | backend/ent/account.go:193-417 | A column that is not selected or only ever NULL leaves its field as it was |
| AccountEntity.DecodingIsProjection | backend/ent/account.go:193-417 | Decoding any selection of a row's columns, in any order and with repetitions, gives each selected field its cell's meaning and leaves every other at zero or nil |
| AccountCreate.Builder.Defaults | backend/ent/account_create.go:527-585 | The unset fields that have a default get it in order, set fields stay, and an unregistered default stops it at that field |
| AccountCreate.DefaultsByColumn | backend/ent/account_create.go:527-585 | Which value of the runtime package, or constant, each unset column gets |
| AccountCreate.FirstUnregistered | backend/ent/account_create.go:527-585 | The error is about the first of creation time, update time, credentials and extra that is neither set nor has a registered default |
| AccountCreate.Builder.CreateSpec | backend/ent/account_create.go:682-891 | The entity returned and the row spec are those of the mutation: its set columns in order, its non-empty edges in order, and the two foreign keys in the entity |
| AccountCreate.FailureIsFirst | backend/ent/account_create.go:588-662 | The reported error is that of the first check that fails, and there is none exactly when all pass |
| AccountCreate.CheckAccepts | backend/ent/account_create.go:588-662 | A mutation passes exactly when all fourteen required fields are set and every validator accepts its field |
| AccountCreate.CheckAcceptsByColumn | backend/ent/account_create.go:588-662 | Column by column: which fields must be set and which validator each one has to satisfy |
| AccountCreate.ChecksByColumn | backend/ent/account_create.go:588-662 | The error reported, as the first failure in the order of the twenty checks |
| AccountCreate.AfterDefaults | backend/ent/account_create.go:527-662 | After successful defaults, only name, platform or type can be missing; anything else is a validator's rejection |
| AccountCreate.SpecHoldsFields | backend/ent/account_create.go:688-803 | A column is written exactly when it is set, and with the value that was set |
| AccountCreate.EdgeSpecsComplete | backend/ent/account_create.go:804-890 | An edge is written exactly when it has ids, and with exactly those |
| AccountCreate.EdgeSpecsByField | backend/ent/account_create.go:804-890 | Groups, children, usage logs, proxy and parent of the mutation each go into the edge of that name, and nowhere else |
| AccountCreate.CellRoundTrip | backend/ent/account_create.go:682-891 | Every cell of the written row fits its column and decodes to the field of the returned entity |
| AccountCreate.CreateReadRoundTrip | backend/ent/account_create.go:682-891 | Reading all columns of the written row, in any order and with repetitions, rebuilds the returned entity without an error |
| AccountCreate.ReadAllColumns | backend/ent/account_create.go:682-891 | A query without a selection, which reads the columns of the table, rebuilds the returned entity |
| AccountKeys.KeysDecoded | backend/ent/account.go:193-417 | For any selection of columns, the keys that a load uses are those in the fields of the entity decoded from the same row |
| AccountKeys.CreatedKeysJoin | backend/ent/account_create.go:820-860 | A created account joins exactly the parent and the proxy that its mutation set, and is among that parent's children |
| BulkCreate.AccountCreateBulk.Save | backend/ent/account_create.go:2095-2152 | A recorded error returns at once; otherwise defaults run for all builders with their errors dropped, the whole chain runs, and nodes come back exactly when it returns no error |
| BulkCreate.AccountCreateBulk.Mutate | backend/ent/account_create.go:2107-2145 | Calling a hook or a builder's own mutator does what the run of the rest of the chain says, in state, error and trace |
| BulkCreate.AccountCreateBulk.Create | backend/ent/account_create.go:2107-2141 | Check, make spec and node, call the next mutator or issue the batch, and mark the builder only if that returned no error |
| BulkCreate.ChainInOrder | backend/ent/account_create.go:2142-2145 | The chain calls the builders in index order, and leaves a builder only through its own mutator |
| BulkCreate.HooksInOrder | backend/ent/account_create.go:2142-2144 | Hook 0 of a builder is outermost, the others follow in order, and its own mutator is inside all of them |
| BulkCreate.Nested | backend/ent/account_create.go:2102-2149 | Every trace is perfectly nested: calls open in chain order inside one another, close innermost first, and the batch happens while all are open |
| BulkCreate.BatchOnce | backend/ent/account_create.go:2117-2131 | There is at most one batch, after all builders passed their checks and made their specs in index order, and it carries all of them |
| BulkCreate.BatchCarriesEdits | backend/ent/account_create.go:2107-2131 | A batch carries for each builder the spec of its mutation as all of its hooks have edited it, and that mutation passes the check |
| BulkCreate.AllFilled | backend/ent/account_create.go:2112-2118 | When the chain reaches the batch, every builder has passed its check and its spec and node are in its own slots |
| BulkCreate.AllOrNone | backend/ent/account_create.go:2132-2140 | If no hook swallows errors or reports success by itself: when a hook or a check stops the chain, or the batch fails, the save fails and no builder is marked; without an error all are |
| BulkCreate.MarkedSuffix | backend/ent/account_create.go:2132-2140 | If no hook swallows errors or reports success by itself: after any number of events, the builders marked so far form a suffix of the list |
| BulkCreate.SuffixIff | backend/ent/account_create.go:2132-2140 | Whatever the hooks do, no builder is ever marked before the one after it exactly when a builder that gets no error back is followed by one that gets none |
| BulkCreate.ReachedGotBack | backend/ent/account_create.go:2132-2149 | In a chain that reaches the batch, a builder gets back what the hooks of the builders after it make of the error of the batch |
| BulkCreate.SaveSucceeds | backend/ent/account_create.go:2095-2152 | If no hook swallows errors or reports success by itself: a save without error inserted the batch, every builder is done, and each node is that of its mutation with the id from its row where there is one |
| BulkCreate.SavedNode | backend/ent/account_create.go:2132-2140 | The node of a successful save has the id that the batch reports, or zero, and otherwise the fields of its mutation |
| BulkCreate.SavedThenRead | backend/ent/account_create.go:2095-2152 | Reading the row that the batch has written for a builder rebuilds the node that the save returned for it |
| BulkCreate.SaveFails | backend/ent/account_create.go:2117-2149 | If no hook swallows errors or reports success by itself: when a hook or a check stops the chain, or the batch fails, the save fails and no done flag changes |
| BulkCreate.BatchedSpecsAreComplete | backend/ent/account_create.go:2105-2113 | No batched spec lacks a required field or holds a rejected one, although the error of the defaults is dropped |
| BulkCreate.OutcomeIsThrough | backend/ent/account_create.go:2132-2149 | A save returns what the hooks of the open calls, composed, make of what the batch, or whatever stopped the chain, returned |
| BulkCreate.TurnByAnswer | backend/ent/account_create.go:2125-2130 | A refusal of the database turns the chain round as it is, or wrapped if it is a constraint error |
| BulkCreate.MarkedIff | backend/ent/account_create.go:2132-2140 | A builder is marked exactly when its mutator is among the open calls and gets no error back, whatever the hooks do |
| BulkCreate.SuccessIsRealIff | backend/ent/account_create.go:2132-2149 | For any number of builders and hooks, also hooks that report success by themselves: a save without error means an inserted batch, whatever the database answers, exactly when the hooks together relay every error of the batch; for a stopped chain, exactly when those of the open calls make an error of what stopped it |
| BulkCreate.MarkIsRealIff | backend/ent/account_create.go:2132-2140 | A builder is marked only for an inserted batch exactly when the hooks of the builders after it relay every error; for a stopped chain, exactly when its mutator is not open or gets an error back |
| BulkCreate.PropagatingHooksRelay | backend/ent/account_create.go:2142-2144 | Hooks that each propagate errors relay them together |
| BulkCreate.NotEveryHookRelays | backend/ent/account_create.go:2142-2144 | A hook that swallows every error is harmless inside one that always fails |
| BulkCreate.SwallowedError | backend/ent/account_create.go:2132-2149 | An input: the database refuses the batch, a hook swallows the error, and the save returns none although nothing was marked |
| BulkCreate.SilentStop | backend/ent/account_create.go:2132-2149 | An input: a hook reports success by itself, the save returns no error, and no batch was issued, although every error would be relayed |
| EdgeOps.ToManyEdge.AddIDs | backend/ent/mutation.go:3881-3888 | Adding ids makes them pending and leaves the rest of the record |
| EdgeOps.ToManyEdge.RemoveIDs | backend/ent/mutation.go:3901-3909 | Removing ids drops them from the pending ones and records them as removed |
| EdgeOps.ToManyEdge.ClearAll | backend/ent/mutation.go:3891-3893 | Clearing sets a flag and keeps the pending ids |
| EdgeOps.RecordByHistory | backend/ent/mutation.go:3881-3932 | An id is recorded as added, or as removed, and the edge as cleared, exactly by the operations since the last reset; only a removal forgets an addition |
| EdgeOps.AppliedIsMeantAndStale | backend/ent/mutation.go:3881-3932 | Applying the record gives what the operations say plus exactly the stale ids, for any operations and any old targets |
| EdgeOps.FaithfulIffNotStale | backend/ent/mutation.go:3881-3932 | The record means what the operations say exactly when no pending id was outlived by a clear |
| EdgeOps.AddThenClear | backend/ent/mutation.go:3881-3893 | Adding id 1 and then clearing leaves id 1 on the edge |
| EdgeOps.ToOneEdge.Clear | backend/ent/mutation.go:3935-3938 | Clearing through the edge raises both flags and keeps a pending id |
| EdgeOps.ToOneEdge.ClearKey | backend/ent/mutation.go:2823-2826 | Clearing through the foreign key raises one flag and drops a pending id |
| EdgeOps.ToOneEdge.Reset | backend/ent/mutation.go:3956-3959 | Resetting the edge drops the pending id and lowers one of the two flags |
| EdgeOps.OneRecordByHistory | backend/ent/mutation.go:3935-3959 | The pending id and the two clear flags are exactly what the operations since the last one that undoes them have left |
| EdgeOps.FaithfulIffHandled | backend/ent/mutation.go:2792-2838 | The record of a to-one edge means what the last operation says exactly when that operation found no pending id to clear and no other flag to reset |
| EdgeOps.SetThenClear | backend/ent/mutation.go:3935-3938 | Setting id 1 and then clearing through the edge leaves id 1 on it |
| EdgeOps.ClearThenReset | backend/ent/mutation.go:2835-2838 | Clearing through the edge and then resetting either the field or the edge still clears it |
| AccountUpdate.FieldDeltasComplete | backend/ent/account_update.go:805-946 | A column is set, added to or cleared exactly when the mutation says so and the column allows it |
| AccountUpdate.SetIff | backend/ent/account_update.go:812-946 | A column is set exactly when the mutation sets it and it has a setter, but for the time of creation |
| AccountUpdate.IncrementedIff | backend/ent/account_update.go:812-946 | A column is added to exactly when the mutation adds to it, it has a setter and it is a number |
| AccountUpdate.ClearedIff | backend/ent/account_update.go:812-946 | A column is cleared exactly when the mutation clears it, it has a setter, NULL decodes to nil for it, and it is not JSON |
| AccountUpdate.UpdateOrderComplete | backend/ent/account_update.go:805-946 | An update can set every column that a create can, except the time of creation |
| AccountUpdate.ToManyUpdated | backend/ent/account_update.go:947-1153 | Executing the deltas, clears first, makes a to-many edge (cleared ? nothing : old minus removed) plus added |
| AccountUpdate.ToOneUpdated | backend/ent/account_update.go:1002-1059 | Executing the deltas gives a to-one edge the pending id, or nothing if it was cleared, or keeps it |
| AccountUpdate.EdgesByField | backend/ent/account_update.go:947-1153 | Groups, children and usage logs each end as (cleared ? nothing : old minus removed) plus added, by their own records |
| AccountUpdate.KeysByField | backend/ent/account_update.go:1002-1059 | Proxy and parent each end as the pending id, or as nothing if either clear flag is up, or as they were |
| AccountUpdate.UpdateIsFaithful | backend/ent/account_update.go:947-1153 | From setter calls to the database, a to-many edge ends as the calls say for any old targets exactly when no id is stale |
| AccountUpdate.ToOneUpdateIsFaithful | backend/ent/account_update.go:1002-1059 | The same for a to-one edge, exactly when its last call is handled |
| AccountUpdate.UpdateSpec.AddFields | backend/ent/account_update.go:805-946 | The spec gets the deltas of all columns, in order |
| AccountUpdate.UpdateSpec.AddEdges | backend/ent/account_update.go:947-1153 | The spec gets the clear and the insert deltas of the five edges, in order |
| AccountUpdate.UpdateSpec.SelectColumns | backend/ent/account_update.go:1955-1967 | The columns to read back, or the first selected field that is not a column |
| AccountUpdate.ReadBackComplete | backend/ent/account_update.go:1955-1967 | The id is read back first and once, with exactly the selected columns |
| AccountUpdate.ReadBackInOrder | backend/ent/account_update.go:1955-1967 | The selected columns are read back in the order of the selection |
| AccountUpdate.UpdateAccepts | backend/ent/account_update.go:759-791 | An update passes exactly when every field that is set satisfies its own validator |
| AccountUpdate.UpdateChecksInOrder | backend/ent/account_update.go:759-791 | The error reported, as the first failure in the order of the six checks |
| AccountUpdate.SaveMany | backend/ent/account_update.go:793-1153 | The update of many accounts fails exactly on a rejected field, and otherwise executes the deltas of the mutation |
| AccountUpdate.SaveOne | backend/ent/account_update.go:1946-2323 | The update of one account executes the same deltas, and has two more errors: a missing id and an unknown selected field |
| AuditParser.SplitLine | tools/check_pnpm_audit_exceptions.py:12-20 | A line is split at its first colon, one pair of quotes is dropped, and a line without a colon is an error |
| AuditParser.ParseExceptions | tools/check_pnpm_audit_exceptions.py:23-48 | The loop computes the records that the line-by-line semantics defines |
| AuditParser.SplitInvertsPair | tools/check_pnpm_audit_exceptions.py:12-20 | Splitting a printed pair gives back its key and its value: a bare value as it is, and a value in either kind of quotes without that pair of quotes, whatever it is |
| AuditParser.SplitLoneQuote | tools/check_pnpm_audit_exceptions.py:16-19 | A lone quote character is read as the empty value |
| AuditParser.SetsIffContinues | tools/check_pnpm_audit_exceptions.py:28-45 | A printed continuation line sets its field exactly when its key is not a header key and starts neither a comment nor a record |
| AuditParser.RunSignificant | tools/check_pnpm_audit_exceptions.py:29-33 | Blank lines, comments and header keys may stand anywhere |
| AuditParser.RunStripped | tools/check_pnpm_audit_exceptions.py:29 | Indentation does not matter |
| AuditParser.PreambleIgnored | tools/check_pnpm_audit_exceptions.py:34-45 | Nothing before the first record line is read |
| AuditParser.ParseInvertsPrint | tools/check_pnpm_audit_exceptions.py:23-48 | Parsing printed records returns them, for any mixture of bare, single-quoted and double-quoted values, any indentation, and any ignored lines between |
| AuditParser.FileRoundTrip | tools/check_pnpm_audit_exceptions.py:27-48 | The same from the text of the file, with any of the three line breaks of universal newlines |
| AuditParser.WhiteSpace | tools/check_pnpm_audit_exceptions.py:15 | The characters that stripping removes |
| AuditParser.ParseFails | tools/check_pnpm_audit_exceptions.py:34-41 | Parsing fails exactly on a record line whose first field has no colon |
| AuditParser.NoEmptyRecords | tools/check_pnpm_audit_exceptions.py:34-47 | No parsed record is empty |
| AuditVerdict.IterVulns | tools/check_pnpm_audit_exceptions.py:64-111 | The findings of both report shapes, in order |
| AuditVerdict.FindingsComplete | tools/check_pnpm_audit_exceptions.py:64-111 | No advisory is skipped, and of a vulnerability's causes only those without any identifier |
| AuditVerdict.AdvisoryIDIsFirst | tools/check_pnpm_audit_exceptions.py:51-61 | An advisory goes by the first identifier it has, in the order GitHub id, URL, first CVE, number, title, advisory text, overview |
| AuditVerdict.ItemIDIsFirst | tools/check_pnpm_audit_exceptions.py:88-96 | A cause that is an object goes by the first of GitHub id, URL, source, title and name |
| AuditVerdict.StringCauses | tools/check_pnpm_audit_exceptions.py:103-108 | A cause that is a string goes by itself, in a list or alone; other causes give no finding |
| AuditVerdict.AdvisoryNames | tools/check_pnpm_audit_exceptions.py:68-78 | A finding of an advisory has its severity, and its module name or else its name |
| AuditVerdict.BuildIndex | tools/check_pnpm_audit_exceptions.py:153-185 | The index keeps the first usable exception of each key, and exactly the incomplete, undated, unnamed and duplicate exceptions are reported |
| AuditVerdict.CheckFinding | tools/check_pnpm_audit_exceptions.py:193-219 | One finding is skipped, or reported for a missing advisory, a missing exception, a severity mismatch or an expired exception, and its key is remembered |
| AuditVerdict.Scan | tools/check_pnpm_audit_exceptions.py:189-219 | Exactly the flaws of the first finding of each key are reported, and every relevant finding without an advisory |
| AuditVerdict.FlawMeans | tools/check_pnpm_audit_exceptions.py:204-219 | Deciding by index and remembered keys is deciding by all exceptions and all earlier findings |
| AuditVerdict.SeenIsNeutral | tools/check_pnpm_audit_exceptions.py:192-219 | Skipping keys already seen does not change whether some finding lacks an exception or has an expired one |
| AuditVerdict.Validate | tools/check_pnpm_audit_exceptions.py:142-243 | The exit status is 0 exactly when the file parses, every exception is complete, dated, named and unique, and every relevant finding has an advisory and an unexpired exception that agrees with the first finding of its key |
| AuditVerdict.UsableIff | tools/check_pnpm_audit_exceptions.py:156-174 | By the five required fields: an exception counts when they are filled, the date is one, and package and advisory are not blank |
| AuditVerdict.RelevantIff | tools/check_pnpm_audit_exceptions.py:194-202 | Exactly the severities high and critical matter, up to case and white space, and only under a name; and such a finding needs an advisory that is not blank |
| AuditVerdict.MatchesIff | tools/check_pnpm_audit_exceptions.py:163-175 | An exception is for the findings of the same package, and of the same advisory up to case, both up to surrounding white space |
| AuditVerdict.CoveredIff | tools/check_pnpm_audit_exceptions.py:207-219 | By the fields: a finding is covered until the day its exception expires, and its severity is compared unless that of the exception is blank |
| AuditVerdict.FirstFindingDecides | tools/check_pnpm_audit_exceptions.py:203-215 | In an accepted report all findings agree in severity exactly when the findings of each key have one severity, where the exception names one |
| AuditVerdict.HighHidesCritical | tools/check_pnpm_audit_exceptions.py:203-215 | An accepted report in which an exception for a high finding lets a critical finding of the same key pass |

## Left out

- Loader.LoadO2M: needs nodes with distinct rows, because the code indexes them by id and keeps only the last of equal ids.
- Loader.LoadM2M: needs nodes with distinct rows for the same reason; and its join predicate is not recorded in the builder, so running the same builder twice is not modelled.
- Loader.All: the sub-queries must be different builder objects; limits, offsets, order, uniqueness and locks of a query are not part of it (`BatchLimit` treats limits and offsets, without an order), nor are traversal paths, modifiers and interceptors other than filters.
- Loader.PrepareQuery: the loop over interceptors and the traversal path are not modelled.
- Loader.SqlAll: modifiers and query hooks other than the join scan are not modelled, and edges are loaded in the order of the requests, which the results do not depend on.
- Redistribute.QuerySpec: states the set of columns and that the id is first; the order of the others and the uniqueness flag are not stated.
- BulkCreate.AccountCreateBulk.Create: the pointer from the mutation to the id of the node is not modelled.
- BulkCreate.AccountCreateBulk.Save: hooks that call the next mutator more than once, or with another mutation, and edits that a hook makes after its call are not modelled; neither is one builder object listed twice. Hooks that do not call the next mutator at all are modelled. The id is set on the node, and the pointer from the mutation to it is not modelled.
- AccountCreate.Builder.CreateSpec: the conflict options of the spec, and the default fields of the join table that the groups edge carries, are not modelled; the blocks per column are one loop over a table of columns, likewise in `Defaults`, `CHECKS` and the update; the ids of an edge are a set, because they come out of a hash map in any order.
- AccountCreate.CreateReadRoundTrip: JSON text, the precision of timestamps and decimals and the database's own defaults are not modelled; the row is what the spec says and NULL elsewhere.
- AccountUpdate.UpdateSpec.AddEdges: the default fields of the join table that the groups deltas carry are not modelled.
- AccountUpdate.SaveMany: the predicates of the update, the database's answer and its errors, the default of the update time, and the order in which it sets, adds to and clears one column are not modelled; that it executes the clears of an edge before the inserts is taken from the names of the two lists.
- AccountUpdate.SaveOne: the code compiles the deltas in a second copy of the same blocks; the model has one `AddFields` and one `AddEdges` for both builders, so that both copies agree line by line is not proved. Predicates, errors of the database and the row read back are not modelled beyond the choice of columns.
- AuditParser.FileRoundTrip: the encoding of the file is not modelled; characters are code points.
- AuditVerdict.Validate: reports in which a value has an unexpected JSON type (which crash the program), titles, messages, argument parsing and file reading are not modelled.
- SQL text, drivers, transactions, contexts, connection errors and the copying of traversal queries.
- Setters, upserts, panicking wrappers, `String` methods and the sibling entities, which repeat the same template.
- Neighbour tables list only the columns that the account edges read.
- The gateway, the scheduler and the billing code.
