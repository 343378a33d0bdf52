# Synthetic fraud-graph generator, modelled in Dafny

The backend's administrative endpoint builds a synthetic fraud graph:
users and transactions whose attributes (email, phone, address, payment
method; IP address, device id) are sometimes shared between two entities,
with one undirected edge per pair of entities that share something,
labelled with the reasons they share. The endpoint then loads the graph
into the store in fixed-size batches, in a strict order. Two listing
endpoints normalise their paging, sorting and filter parameters before
querying. This project models that core and proves what it promises.

The modules follow the structure of `backend/controllers/adminControllers.js`:

- `Wrappers` holds `Option`.
- `JsText` holds what the generator needs of JavaScript strings:
  - `String(n)` for natural numbers, with its parsing inverse;
  - `padStart` and `slice(-k)`;
  - the string order `<`.
- `Density` covers `clamp`, `parseDensity` and `computeSparseProbability`, plus the normalisation of the request's counts and densities. A query parameter after `Number(...)` is a `Param`: absent, blank, NaN, an infinity, or a finite number.
- `EdgeAccumulator` is the edge map and `finalizeEdges`:
  - a class `EdgeMap` whose `AddEdge` is specified by the pure `WithEdge` on the map's contents (`EdgeTable`);
  - keys are kept in insertion order, and each key's reasons are an insertion-ordered set.
- `SharingEngine` is the group lists (class `GroupList`), the eligible-group filter, `randomChoice`, and `AssignValue`. `AssignValue` is the shared body of `assignSharedValue` and `assignTransactionAttribute`.
- `Generator` holds:
  - the user and transaction loops of `buildSyntheticData`, as methods with loop invariants;
  - the seed-edge fallback;
  - the finalised result.
- `BatchLoader` holds:
  - the slicing loops of `generateData`, which run against a `Session` class that records the operations it is sent;
  - the batch plan those loops follow;
  - `GenerateData` itself.
- `Listing` is the parameter normalisation of `listAllUsers` and `listAllTransactions`.

Every call of `Math.random()` becomes an explicit draw, a real in
[0, 1), and these are passed in: each user and each transaction gets one
record of draws, given as a function of its index. Every property proved
about the generator therefore holds for every possible sequence of random
results.

Transaction amounts are `Math.round(Math.random() * 100000) / 100`, which
can be exactly 1000.00: the model keeps the amount in cents, and
`Generator.AmountCentsOnto` shows that every cent value in [0, 100000],
100000 included, is reachable.

The `['unspecified']` fallback of `finalizeEdges` never fires in a run of
the generator: an entry without reasons needs an `addEdge` call with an
empty reason, and no caller makes one. `Generator.BuildSyntheticData`
states that every finalised reason is one of the callers' tags.

## Model

| member | source | states |
|---|---|---|
| Density.Clamp | backend/controllers/adminControllers.js:5 | the result lies in [min, max] whenever min ≤ max; a value already inside is kept; below min gives min, above max gives max |
| Density.ParseDensity | backend/controllers/adminControllers.js:7-11 | a value exactly when the parameter is a finite number (absent, empty, NaN and infinities give none); that value is in [0, 1], is the input when it was already there, and is 0 below and 1 above |
| Density.SparseProbability | backend/controllers/adminControllers.js:28-35 | 0 when the count is 0 or the density is ≤ 0; otherwise the smaller of clamp(density)·densityScale and countScale/count, so it never exceeds either cap, and it is a probability in [0, 1] for scales in range |
| Density.ExpectedSharingBounded | backend/controllers/adminControllers.js:28-35 | count · probability never exceeds countScale: the expected number of shares per dimension is bounded by a constant whatever the population |
| Density.ProbabilityAntitone | backend/controllers/adminControllers.js:28-35 | for a fixed density, a larger population never gets a larger sharing probability |
| Density.UsersCount | backend/controllers/adminControllers.js:147-148 | the users count is in [10, 20000]; a non-positive or non-finite request gives 20000; a request in range is kept; a positive one below 10 gives 10 |
| Density.TransactionsCount | backend/controllers/adminControllers.js:149 | the transactions count is in [100000, 2000000]; absent, blank, NaN and 0 give 100000 through `\|\|`; −Infinity gives 100000 through `Math.max`; +Infinity gives 2000000, a request in range is kept, others are clamped |
| Density.RequestedDensity | backend/controllers/adminControllers.js:151-153 | the specific density when it parses, else the `density` fallback when that parses, else the default; always in [0, 1] |
| Density.NormalizeRequest | backend/controllers/adminControllers.js:147-153 | the generation parameters: both counts and both densities within their bounds, each equal to the normalisation of its own request parameters |
| Density.NoDensityParameters | backend/controllers/adminControllers.js:152-153 | with no usable density parameter the user density is 0.001 and the transaction density 0.05 |
| JsText.NatToString | backend/controllers/adminControllers.js:69 | `String(i)` is a non-empty string of decimal digits, one digit exactly when i < 10 |
| JsText.ParseNatToString | backend/controllers/adminControllers.js:69 | reading the decimal digits of `String(i)` gives back i |
| JsText.NatToStringInjective | backend/controllers/adminControllers.js:69 | different numbers have different decimal strings |
| JsText.PadStartShape | backend/controllers/adminControllers.js:73 | `padStart(width, fill)` has length max(width, \|s\|), ends with s, and is fill before it |
| JsText.LastCharsSuffix | backend/controllers/adminControllers.js:73 | `slice(-k)` for k > 0 is the suffix of s of length min(k, \|s\|) |
| JsText.LessIrreflexive | backend/controllers/adminControllers.js:15 | no string is `<` itself |
| JsText.LessAsymmetric | backend/controllers/adminControllers.js:15 | `a < b` excludes `b < a` |
| JsText.LessTotal | backend/controllers/adminControllers.js:15 | of two different strings one is `<` the other, so the normalised key is always defined |
| JsText.LessTransitive | backend/controllers/adminControllers.js:15 | `<` on strings is transitive |
| JsText.LessCommonPrefix | backend/controllers/adminControllers.js:15 | a shared prefix does not change how two strings compare |
| EdgeAccumulator.Normalize | backend/controllers/adminControllers.js:15 | the key holds the two ids, the smaller one as source |
| EdgeAccumulator.NormalizeSymmetric | backend/controllers/adminControllers.js:15-16 | `(a, b)` and `(b, a)` give the same key |
| EdgeAccumulator.NormalizedKeyUnique | backend/controllers/adminControllers.js:15-16 | two normalised keys over the same unordered pair are equal: one key per unordered pair |
| EdgeAccumulator.SetAdd | backend/controllers/adminControllers.js:18 | `Set.add`: the elements become old ∪ {x}, there are still no duplicates, and an element already present changes nothing |
| EdgeAccumulator.WithEdge | backend/controllers/adminControllers.js:13-20 | no change when an id is empty or the ids are equal; otherwise the normalised key is present, its reasons become old ∪ {reason} (unchanged for an empty reason), a new key is appended to the insertion order, no other entry changes, and the map invariant is kept |
| EdgeAccumulator.WithEdgeKeepsEndpoints | backend/controllers/adminControllers.js:13-20 | adding an edge between known ids keeps every endpoint known |
| EdgeAccumulator.WithEdgeKeepsReasons | backend/controllers/adminControllers.js:13-20 | adding an edge with an allowed non-empty reason keeps every edge's reasons non-empty and allowed |
| EdgeAccumulator.EdgeMap.constructor | backend/controllers/adminControllers.js:46 | `new Map()`: the empty table, which satisfies the map invariant |
| EdgeAccumulator.EdgeMap.Size | backend/controllers/adminControllers.js:124 | `edgeMap.size` is the number of keys |
| EdgeAccumulator.EdgeMap.AddEdge | backend/controllers/adminControllers.js:13-20 | the map's new contents are `WithEdge` of its old contents |
| EdgeAccumulator.NoDuplicatesCardinality | backend/controllers/adminControllers.js:22 | the insertion order lists exactly as many keys as the map holds, so `Array.from(edgeMap.values())` has `size` entries |
| EdgeAccumulator.FinalizeEdges | backend/controllers/adminControllers.js:22-26 | one record per map entry, in insertion order, with the entry's endpoints; every record's reasons are non-empty, are the entry's reasons when it has any, and are `['unspecified']` exactly when the set was empty (or already was that) |
| EdgeAccumulator.FinalizedPairsDistinct | backend/controllers/adminControllers.js:22-26 | for a well-formed map the records have source < target and duplicate-free reasons, and no unordered pair appears twice |
| EdgeAccumulator.WithEdgeAt | backend/controllers/adminControllers.js:13-20 | one `addEdge` call adds its reason to the entry it lands on and touches no other entry |
| EdgeAccumulator.AccumulatedReasons | backend/controllers/adminControllers.js:13-20 | after any run of `addEdge` calls, a key is present exactly when some call landed on it, and its reasons are the union of the non-empty reasons of those calls |
| SharingEngine.Pick | backend/controllers/adminControllers.js:1-3 | `randomChoice` picks an index inside the array |
| SharingEngine.PickInterval | backend/controllers/adminControllers.js:1-3 | index i is picked exactly for the draws in [i/n, (i+1)/n): the choice is uniform |
| SharingEngine.Eligible | backend/controllers/adminControllers.js:54 | the eligible indices are exactly the groups with fewer than 2 members, in increasing order |
| SharingEngine.GroupList.constructor | backend/controllers/adminControllers.js:48-51 | a new group list is empty |
| SharingEngine.Assign | backend/controllers/adminControllers.js:53-66 | the effect of one call as a value (new groups, new edge table, value returned); at probability 0 it is the fresh branch: the default's singleton group is appended, the default returned, the table unchanged |
| SharingEngine.AssignValue | backend/controllers/adminControllers.js:53-66 | share branch: the chosen eligible group gains exactly the new id, its value is returned, and one edge joins the id to an earlier member; fresh branch: one singleton group with the default is appended, the default is returned and the edge map is unchanged; every group keeps one or two members, and the map invariant, endpoints and reasons are preserved; the new groups, table and value are `Assign` of the old ones |
| SharingEngine.NeverSharesAtZero | backend/controllers/adminControllers.js:55 | at probability 0 the share branch is never taken, whatever the draws |
| SharingEngine.JoinAgrees | backend/controllers/adminControllers.js:59-60 | the id pushed onto the chosen group receives that group's value, so every group member still carries its group's value |
| SharingEngine.AppendAgrees | backend/controllers/adminControllers.js:63-65 | the newly founded group `{ value: defaultValue, ids: [id] }` has its one member carrying its value, and the old groups are untouched |
| SharingEngine.LearnAgrees | backend/controllers/adminControllers.js:53-66 | recording the value a new id received leaves every existing edge joining two ids with the same value for each of its reasons |
| SharingEngine.AssignAgrees | backend/controllers/adminControllers.js:53-66 | after either branch of `Assign` every group member, the new id included, carries its group's value, and every edge with reason r, the new one included, joins two ids with the same recorded r-value |
| SharingEngine.AddEdgeAgrees | backend/controllers/adminControllers.js:55-60 | the edge `addEdge(map, id, peer, reason)` joins the new id to a peer whose value for `reason` is the value the id receives, so after it every edge still joins two ids that agree on each of its reasons |
| Generator.EntityIdInjective | backend/controllers/adminControllers.js:69 | equal ids `u_${i}` come from equal indices |
| Generator.EntityIdsDistinct | backend/controllers/adminControllers.js:104 | different indices give different ids |
| Generator.IdsNext | backend/controllers/adminControllers.js:68-69 | the id of entity n is new among the first n, and extends their id set by one |
| Generator.UserNameReadsBack | backend/controllers/adminControllers.js:70 | the name `User${i}` is `User` followed by decimal digits that read back as i |
| Generator.DefaultEmailReadsBack | backend/controllers/adminControllers.js:71 | the default email is `user`, decimal digits reading back as i, then `@example.com` |
| Generator.DefaultPhoneDigits | backend/controllers/adminControllers.js:73 | the default phone has 14 characters: `+1-555-` and seven digits that read back as i modulo 10^7 (zero-padded, the high digits cut off) |
| Generator.DefaultAddressReadsBack | backend/controllers/adminControllers.js:75 | the default address is `Address ` followed by decimal digits reading back as i |
| Generator.DefaultPayment | backend/controllers/adminControllers.js:77 | the default payment method is one of the four payment kinds |
| Generator.DefaultPaymentRotates | backend/controllers/adminControllers.js:77 | indexing by `i % payments.length` gives consecutive users different payment methods and repeats every four users |
| Generator.DefaultIpInjective | backend/controllers/adminControllers.js:109 | two transactions with the same default ip have the same index: the three fields `i / 10000`, `(i / 100) % 100`, `i % 100` give back i |
| Generator.FloorsAreIntegerDivisions | backend/controllers/adminControllers.js:109-111 | on exact reals, `Math.floor(i / 10000)`, `Math.floor((i / 100) % 100)` (with the remainder of JavaScript's `%`) and `Math.floor(i / 10)` are the integer divisions the default ip and device id use |
| Generator.DefaultDeviceIdReadsBack | backend/controllers/adminControllers.js:111 | the default device id is `dev_` followed by decimal digits reading back as i / 10, so ten consecutive transactions share it |
| Generator.DefaultsHave | backend/controllers/adminControllers.js:63-65 | the default of every entity j < n is among the defaults of the first n |
| Generator.DefaultsOnly | backend/controllers/adminControllers.js:59-65 | a value among the defaults of the first n is the default of some entity j < n |
| Generator.AssignDefault | backend/controllers/adminControllers.js:53-66 | one `assignSharedValue` / `assignTransactionAttribute` call for entity i: the value handed out is the default of entity i or of an earlier one; the list keeps its invariant and holds only such defaults; every group member carries its group's value, the new id the value returned; any edge with reason r, the new one included, joins two ids with the same recorded r-value; edges stay among the known ids with allowed reasons; the new group list, edge table and value are exactly `Assign` of the old list and table for this id, default, reason and draw (which group gained the id, which edge was added); at probability 0 the edge map is unchanged |
| Generator.AssignPair | backend/controllers/adminControllers.js:110-112 | two such calls, for two different reasons on two different lists: both lists keep their facts and every edge still joins ids that agree on each of its reasons once both new values are recorded; the two lists, the two values and the edge table are exactly those of `Assign` for the first call followed by `Assign` for the second on the table the first left |
| Generator.SenderIndex | backend/controllers/adminControllers.js:105 | the sender index lies in [0, usersCount) |
| Generator.ReceiverIndex | backend/controllers/adminControllers.js:106-107 | the receiver index lies in [0, usersCount) and differs from the sender whenever there are at least two users |
| Generator.ReceiverId | backend/controllers/adminControllers.js:106-117 | the receiver is one of the users and not the sender when there are two or more; with no users it is `u_NaN` |
| Generator.AmountCents | backend/controllers/adminControllers.js:108 | the amount, in cents, lies in [0, 100000] |
| Generator.AmountCentsOnto | backend/controllers/adminControllers.js:108 | every amount in [0, 100000] cents occurs for some draw, 100000 included |
| Generator.NewTransaction | backend/controllers/adminControllers.js:104-121 | transaction `t_${i}` carries the engine's ip and device id, an amount in range, and a sender and receiver among the users that differ when there are two or more users |
| Generator.AssignUserAttributes | backend/controllers/adminControllers.js:72-78 | the four calls of one user, in loop order: each list keeps its facts, and every edge joins users that agree on each of its reasons once the user's four values are recorded; the four lists, the four values and the edge table are exactly those of the four `Assign` steps chained in order email, phone, address, payment_methods |
| Generator.UsersViewedSnoc | backend/controllers/adminControllers.js:80 | pushing user `u_${n}` onto the users keeps the recorded attributes equal to every user's own fields |
| Generator.UserLoopStep | backend/controllers/adminControllers.js:68-81 | one user step keeps the whole loop invariant, edge meaning included |
| Generator.UserEdgesFromViews | backend/controllers/adminControllers.js:22-26 | the finalised records of a map whose edges agree with the users' recorded attributes join, for each reason email, phone, address or payment_methods, two users with the same value of that attribute |
| Generator.NewUser | backend/controllers/adminControllers.js:69-80 | one user step: user `u_${i}` named `User${i}`, whose email, phone, address and payment method are each the default of user i or of an earlier user; all four group lists keep one or two members per group, every member among the first i+1 users, and hold only such defaults, each member carrying its group's value; edges only between those users with reasons among email, phone, address and payment_methods, each joining two users with the same value for every reason it carries; at probability 0 no edge is added |
| Generator.BuildUsers | backend/controllers/adminControllers.js:68-81 | usersCount users; user i has id `u_${i}`, name `User${i}`, and each of its four attributes is the default of user i or of an earlier user; every edge joins two generated users and carries only user reasons; every finalised record with reason email, phone, address or payment_methods joins two users whose attribute of that name is the same; at probability 0 the map stays empty |
| Generator.NewTransactionEntry | backend/controllers/adminControllers.js:103-121 | one transaction step: the result is `NewTransaction` for this index and its draws (id `t_${i}`, sender and receiver among the users and different when there are two or more, amount in range), its ip and device id each the default of transaction i or of an earlier one; both group lists keep their invariant and hold only such defaults; edges only between the first i+1 transactions with reasons ip or deviceId, each joining two transactions with the same ip (for `ip`) and the same device id (for `deviceId`); at probability 0 no edge is added |
| Generator.TransactionsViewedSnoc | backend/controllers/adminControllers.js:114-121 | pushing transaction `t_${n}` keeps the recorded ips and device ids equal to every transaction's own fields |
| Generator.TransactionEdgesFromViews | backend/controllers/adminControllers.js:22-26 | the finalised records of a map whose edges agree with the recorded ips and device ids join two transactions with the same ip when they carry `ip` and the same device id when they carry `deviceId` |
| Generator.BuildTransactions | backend/controllers/adminControllers.js:103-122 | transactionsCount transactions; transaction i is `NewTransaction` of i and its own draws, with ip and device id each the default of transaction i or of an earlier one; edges only between generated transactions with ip/deviceId reasons; every finalised record carrying `ip` joins two transactions with the same ip, every one carrying `deviceId` two with the same device id; at probability 0 the map stays empty |
| Generator.FinalizedEdgesValid | backend/controllers/adminControllers.js:131-132 | a finalised well-formed map is a valid edge set: source < target, endpoints known, reasons non-empty, duplicate-free and allowed, one record per unordered pair |
| Generator.NoEdgeAmongFewerThanTwo | backend/controllers/adminControllers.js:124-129 | with fewer than two entities no edge exists |
| Generator.OneEdgeBetweenTwo | backend/controllers/adminControllers.js:124-132 | a non-empty valid edge set over two entities is the one edge between them |
| Generator.AddSeedEdge | backend/controllers/adminControllers.js:124-129 | when the map is empty, there are two or more entities and the density is positive, the map becomes exactly the `seed` edge between entities 0 and 1; otherwise it is unchanged; afterwards the map is non-empty whenever count > 1 and density > 0 |
| Generator.SeedRecordOnlySeed | backend/controllers/adminControllers.js:124-132 | the seed edge added to an empty map finalises to at most one record, whose reasons are exactly `['seed']` |
| Generator.SeedClaimsNothing | backend/controllers/adminControllers.js:125-128 | records whose only reason is `seed` claim no shared attribute |
| Generator.SeedKeepsShares | backend/controllers/adminControllers.js:124-132 | the seed step, which either adds the seed edge to an empty map or changes nothing, keeps every record with an attribute reason joining entities that agree on it |
| Generator.SeedAndFinalize | backend/controllers/adminControllers.js:124-132 | the seed step and `finalizeEdges` for one map: the map is unchanged or exactly the seed edge between entities 0 and 1; the records are its finalisation, a valid edge set; none when the density is ≤ 0 or there are fewer than two entities, some otherwise |
| Generator.BuildSyntheticData | backend/controllers/adminControllers.js:37-141 | the effective densities are the sparse probabilities with scales (8, 0.1) and (6, 0.08); user i has id `u_${i}`, name `User${i}` and attributes that are defaults of user i or earlier users; transaction i is `NewTransaction` of i and its draws, with ip and device id that are defaults of transaction i or earlier ones; both edge lists are valid edge sets over their own entities and tags (plus `seed`); each edge list is empty when its density is ≤ 0 or there are fewer than two entities, and non-empty otherwise; every shared-edge record with reason r other than `seed` joins two users with the same r-attribute, and every transaction-edge record carrying `ip` or `deviceId` joins two transactions with the same ip or device id |
| Generator.TwoUsersShareOneEdge | backend/controllers/adminControllers.js:124-132 | with two users and sharing requested there is exactly one shared edge, `u_0`–`u_1` |
| BatchLoader.SlicesBounded | backend/controllers/adminControllers.js:171-172 | every slice holds between 1 and size elements |
| BatchLoader.SlicesConcatenate | backend/controllers/adminControllers.js:171-172 | the slices joined in order are the original sequence |
| BatchLoader.BatchesAt | backend/controllers/adminControllers.js:171-178 | batch k carries slice k |
| BatchLoader.TransactionOpsAt | backend/controllers/adminControllers.js:196-216 | transaction slice k issues node merge, then DEBIT, then CREDIT, all with the same slice, at positions 3k, 3k+1, 3k+2 |
| BatchLoader.PlanOrderedAndBounded | backend/controllers/adminControllers.js:169-229 | the load runs in phases that never go back: all user batches, then shared-edge batches, then transaction batches (nodes and both link kinds), then RELATED_TO batches; no operation carries more than 5000 records |
| BatchLoader.PlanSendsEveryUser | backend/controllers/adminControllers.js:170-179 | the users sent, batch by batch, are exactly the generated users in order |
| BatchLoader.PlanSendsEverySharedEdge | backend/controllers/adminControllers.js:181-193 | the shared edges sent are exactly the finalised shared edges in order |
| BatchLoader.PlanLinksEveryTransaction | backend/controllers/adminControllers.js:195-216 | the transactions merged, DEBIT-linked and CREDIT-linked are each exactly the generated transactions in order |
| BatchLoader.PlanSendsEveryRelatedEdge | backend/controllers/adminControllers.js:218-229 | the transaction edges sent are exactly the finalised transaction edges in order |
| BatchLoader.Session.constructor | backend/controllers/adminControllers.js:145 | a new session has sent nothing |
| BatchLoader.Session.Run | backend/controllers/adminControllers.js:173-178 | `session.run` appends its operation to what the session has been sent |
| BatchLoader.LoadSlices | backend/controllers/adminControllers.js:171-179 | the `i += batchSize` loop sends one batch per slice, in order, and nothing else |
| BatchLoader.SendTransactionSlice | backend/controllers/adminControllers.js:197-215 | one slice of the transaction loop sends exactly its node merge, then its DEBIT links, then its CREDIT links, each carrying the whole slice |
| BatchLoader.LoadTransactions | backend/controllers/adminControllers.js:196-216 | the transaction loop sends node, DEBIT and CREDIT operations per slice, in order, and nothing else |
| BatchLoader.Load | backend/controllers/adminControllers.js:169-229 | the four loops together send exactly the batch plan |
| BatchLoader.GenerateData | backend/controllers/adminControllers.js:144-241 | the reported counts and densities are the normalised request's, the counts equal the generated data's, the effective densities are the sparse probabilities; user i and transaction i are as `BuildSyntheticData` states (ids, names, attributes among the defaults of that entity and earlier ones, transactions given by their draws); both edge sets are valid; each edge list is non-empty exactly when its density is positive; every edge with a reason other than `seed` joins two entities with the same value of the attribute it names; the session is sent exactly the batch plan of the generated data |
| Listing.PageNumber | backend/controllers/userControllers.js:27 | the page is at least 1; a finite page ≥ 1 is kept, +Infinity passes through, anything else is 1 |
| Listing.PageSize | backend/controllers/userControllers.js:28 | the limit is in [1, 200]; in range it is kept; 0, missing, blank and NaN give 25; above 200 and +Infinity give 200; negatives and −Infinity give 1 |
| Listing.Offset | backend/controllers/userControllers.js:29 | the offset is (page − 1)·limit, never negative, and infinite exactly when the page is |
| Listing.PagesTile | backend/controllers/userControllers.js:29 | the next page starts exactly one limit further on |
| Listing.OffsetRecoversPage | backend/controllers/userControllers.js:29 | the offset is a multiple of the limit, and dividing by the limit gives back page − 1 |
| Listing.PageWindowsDisjoint | backend/controllers/userControllers.js:29 | the row windows of two different pages never overlap |
| Listing.SortKey | backend/controllers/userControllers.js:30 | the sort key is the query's when non-empty, otherwise `id` |
| Listing.Direction | backend/controllers/userControllers.js:31 | the direction is `desc` exactly when the query is the string `desc`, otherwise `asc` |
| Listing.TextFilter | backend/controllers/userControllers.js:32 | a text filter is null exactly when the parameter is absent or empty, and otherwise the raw string |
| Listing.UserSortField | backend/controllers/userControllers.js:34-38 | the field is `u.name` exactly for the key `name`, otherwise `u.id` |
| Listing.SqlDirection | backend/controllers/userControllers.js:39 | `DESC` exactly for `desc`, otherwise `ASC` |
| Listing.OrderBy | backend/controllers/userControllers.js:40 | the clause starts with `ORDER BY ` and has room for exactly the field, one space and the direction |
| Listing.ParseOrderByRoundTrip | backend/controllers/userControllers.js:40 | the field and direction can be read back out of the clause |
| Listing.OrderByInjective | backend/controllers/userControllers.js:40 | different fields or directions give different clauses |
| Listing.NormalizeUserQuery | backend/controllers/userControllers.js:27-40 | page, limit and offset as above; the clause orders by `u.name` exactly for `sortBy=name` (else `u.id`), descending exactly for `direction=desc`; `q` as the text filter rule says |
| Listing.UserOrderClauseFixed | backend/controllers/userControllers.js:34-40 | the users clause is one of four fixed strings, so no query text reaches it |
| Listing.AmountFilter | backend/controllers/transactionControllers.js:43-44 | an amount filter is null exactly when the parameter is absent or empty, and is otherwise the number it parses to |
| Listing.TransactionSortField | backend/controllers/transactionControllers.js:47-51 | the field is `t.amount` exactly for the key `amount`, otherwise `t.id` |
| Listing.NormalizeTransactionQuery | backend/controllers/transactionControllers.js:33-53 | page, limit and offset as above; the clause orders by `t.amount` exactly for `sortBy=amount` (else `t.id`), descending exactly for `direction=desc`; the four text filters and two amount filters follow their rules |
| Listing.TransactionOrderClauseFixed | backend/controllers/transactionControllers.js:47-53 | the transactions clause is one of four fixed strings |

## Left out

- The store: the Cypher text of every `session.run` and what MERGE/MATCH/UNWIND do in Neo4j is not modelled. A `Session` records the operations it is sent, labelled by kind and carrying their records, and the `await` on each call is the order of that record.
- `Math.random()`: each draw is a parameter, a real in [0, 1); no distribution is modelled beyond the uniform index of `Pick`. Draws come per entity rather than as one sequential stream; a draw the code does not consume (say, the group choice when nothing is shared) is simply unused.
- Floating point: reals stand for numbers; the amount is kept in integer cents, and the division by 100 is left out.
- JavaScript `Number()` of non-integral counts and pages (a fractional page, a fractional users count) is left out: counts, pages and limits are whole numbers, infinite, NaN or missing.
- `sortFieldMap[sortBy]` with a key inherited from `Object.prototype` (say `toString`) is left out: the map is the two-key lookup.
- Query parameters given as arrays (`?q=a&q=b`) are left out: each parameter is a single string.
- Edge map keys are pairs instead of the string `source|target`; the two agree for the generator's ids, which contain no `|`.
- String comparison is by `char`; the difference between UTF-16 code units and code points does not arise for the generator's ASCII ids.
- `buildSyntheticData`'s own defaults of 0.05 for missing densities, and `computeSparseProbability`'s default density scale of 0.15, are left out: `generateData` always passes every argument.
- The response message, the HTTP status codes, `console.error`, the catch branch and `session.close()` are left out, as are the driver plumbing of the listing endpoints and the `neo4j.int` conversion of their parameters.
- `backend/cyphers`, the routes, the serverless entry point and the client are not part of this model.
- Generator.BuildUsers: states that each attribute of user i is the default of user i or of an earlier user, and that an edge joins users with equal attributes, not which earlier user's group was joined; SharingEngine.AssignValue states that choice per call.
- Generator.NewUser: the same as BuildUsers, for one user.
- Generator.BuildTransactions: states that the ip and device id of transaction i are defaults of transaction i or earlier ones, and that an edge joins transactions with equal ip or device id, not which group was joined; SharingEngine.AssignValue states that per call.
- Generator.NewTransactionEntry: the same as BuildTransactions, for one transaction.
- Generator.BuildSyntheticData: inherits the two lines above; which group each attribute joined is not stated.
- BatchLoader.GenerateData: the same, through BuildSyntheticData.
- Generator.SeedAndFinalize: does one map's seed step and its `finalizeEdges` together, so the shared-edge map is finalised before the transaction map is seeded; the two maps are separate objects, and the order changes neither result.
- Generator.DefaultIp and Generator.DefaultDeviceId: the floating-point divisions and `Math.floor` are modelled as integer division; Generator.FloorsAreIntegerDivisions shows the two agree on exact reals, and rounding of IEEE doubles is not modelled.
- Listing.AmountFilter: keeps the parsed number (which may be NaN or an infinity) and does not model what the store does with it.
