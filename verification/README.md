# Verified models of Siebog and DNARS

Dafny models of five stateful parts of the Siebog multi-agent platform and its DNARS reasoner, with
proofs of what each of them keeps over every run. `dafny verify dfyconfig.toml` checks everything.

**The DNARS knowledge base.** A fact is stored redundantly: a product statement with its two images, or
both directions of a similarity, and stating any form again revises the truth of all of them. The graph
is a multigraph, so that "one edge per statement" is a theorem. `Truths`, `Terms`, `Statements` and `Facts`
are the values; `KnowledgeBase` says what an addition does to a list of edges, and that it does to the
redundant store what one revision does to a map from fact to truth; `Confluence` follows whole runs;
`Graph` is the program's own form, a class updated in place through string-keyed vertices and cached
ranking keys, each method proved against that specification (`Store`, `Ranking`). `Enumeration` reads the
store back; `Parser` and `RoundTrip` are the statement grammar and its printer, `Numerals` and
`Questions` what the grammar reads beyond what the printer writes.

The guards found for the knowledge base are exact. Revision is undefined exactly when both confidences
are 0 or both are 1. The store stays coherent exactly when no valid input is a reflexive similarity or has
the placeholder `*` as first argument of a relation (`Facts.Sound`); each such input breaks it, and
`Confluence` gives inputs that bring about the two exceptions. A statement survives printing and
parsing exactly when the grammar can produce it and its truth is in hundredths.

**The percept cache** of a Jason environment (`Percepts`, `PerceptsConcurrent`): `getPercepts` answers null
to an agent that is up to date, so every mutator has to invalidate. The comment on `getPercepts` (lines
98-99) says that null means "unchanged since the last call"; the converse is not promised: a mutation that
is undone, or a removal that finds nothing, still unmarks agents.

**The round barriers**: `Barrier` (supersteps, with its alarms), `Lockstep` (the barrier with its agents over
a network) and `CycleControl` (reasoning cycles). Three facts of the code matter. When the alarm asks who is
alive, every living answer makes the barrier signal the superstep again to the whole processing set, not
to the agent that answered (BarrierBean.java 110-117, 126-136). A completion carries no superstep number, so
after such a repetition a second completion counts for the next superstep; lockstep therefore holds
exactly when the current alarm does not fire. The cycle control's own `filterUnavailableAgents` is empty
(ExecutionControlBean.java 170), so its timeouts only set the timer again. A new cycle leaves its message and
its timer to an executor thread, and the timer takes the cycle number of the moment at which that thread
gets to it (ExecutionControlBean.java 83, 116-122): the current cycle may have no timer for a while, or
several for good.

**Ant colony optimisation** for the travelling salesman: `Colony` (messages and tours), `AntTour` (the ant's
protocol with the map's replies), `Roulette` (the wheel, over numbers with infinities and NaN as in `Floats`),
`AntAgent` (the ant as a class), `TspMap` (the map agent), `Distances` (which maps the search is for) and
`Foraging` (the map with any number of ants, asynchronously). Two nodes may be in one place, as 12 and 13 are
in the default map ulysses16.tsp: an offered weight of 0 makes the wheel stop at the last offered node
whatever the draw, and leaves tours and bounds right. The ant builds a message for a local pheromone update on every move (Ant.java 191-194) and never
posts it; the map handles such messages, and the bounds proved include them.

**The event queue** between a producer and the event dispatch thread (`Events`), in the atomic steps left by
its two locks, with its observers; `Enumeration.ObserversSeeFacts` connects it with the knowledge base.

Numbers are `real` and `int`. Draws of random numbers, answers to pings, the pheromones seen by an ant and
the iteration order of sets are parameters: the theorems hold for all of them. Exceptions are outcomes.
`Options`, `Sequences` and `Reals` hold stock definitions and arithmetic facts. `Truths.ForwardExample` checks the
values expected in dnars/test/dnars/base/TruthTest.scala 32-43.

## Model

| member | source | states |
|---|---|---|
| `Truths.RevisionDefined` | dnars/src/dnars/base/Truth.scala:79-85 | revision divides by zero exactly when both confidences are 0 or both are 1 |
| `Truths.RevisionAddsEvidence` | dnars/src/dnars/base/Truth.scala:79-85 | for confidences strictly between 0 and 1, revision is defined and is the truth of the summed evidence, where confidence c stands for an amount c/(1-c) at that frequency |
| `Truths.RevisionProper` | dnars/src/dnars/base/Truth.scala:79-85 | the result of a revision can be revised again, and carries the evidence of both inputs |
| `Truths.TruthOfEvidenceOf` | dnars/src/dnars/base/Truth.scala:79-85 | truth to evidence and back is the identity |
| `Truths.EvidenceOfTruthOf` | dnars/src/dnars/base/Truth.scala:79-85 | evidence to truth and back is the identity |
| `Truths.RevisionCommutes` | dnars/src/dnars/base/Truth.scala:79-85 | revision is commutative |
| `Truths.RevisionAssociates` | dnars/test/dnars/base/TruthTest.scala:54-59 | revision is associative on all proper truths |
| `Truths.RevisionFrequency` | dnars/src/dnars/base/Truth.scala:79-85 | the revised frequency lies between the two inputs |
| `Truths.RevisionConfidence` | dnars/src/dnars/base/Truth.scala:79-85 | the revised confidence is strictly above both inputs and strictly below 1 |
| `Truths.DeductionWeakens` | dnars/src/dnars/base/Truth.scala:43-46 | deduction stays in the unit square, with confidence at most the smaller input |
| `Truths.InductionWeakens` | dnars/src/dnars/base/Truth.scala:48-51 | induction never divides by zero, is never more confident than the smaller input, nor than 1/2 |
| `Truths.AbductionWeakens` | dnars/src/dnars/base/Truth.scala:53-56 | the same of abduction |
| `Truths.ComparisonWeakens` | dnars/src/dnars/base/Truth.scala:58-63 | comparison divides by zero exactly when both frequencies are 0; otherwise the same bounds |
| `Truths.AnalogyWeakens` | dnars/src/dnars/base/Truth.scala:65-72 | analogy, in either direction, stays in the unit square with confidence at most the smaller input |
| `Truths.ResemblanceWeakens` | dnars/src/dnars/base/Truth.scala:74-77 | the same of resemblance |
| `Truths.DeductionIs` | dnars/src/dnars/base/Truth.scala:43-46 | deduction from a certain premise, and how the conclusion scales with the confidence and the frequency of a premise; with its symmetry this fixes all its values |
| `Truths.AnalogyIs` | dnars/src/dnars/base/Truth.scala:65-72 | analogy with a certain similarity changes nothing, and the conclusion scales with the confidence and the frequency of the similarity |
| `Truths.ResemblanceIs` | dnars/src/dnars/base/Truth.scala:74-77 | resemblance with a certain similarity and with a certain difference, the mean of the two in between, and in proportion to the confidence |
| `Truths.InductionIs` | dnars/src/dnars/base/Truth.scala:48-51 | induction keeps the first frequency, and its evidence is the product of the second frequency with both confidences |
| `Truths.ComparisonEvidence` | dnars/src/dnars/base/Truth.scala:58-63 | the frequency of comparison is the shared part of the union of both frequencies, and its evidence is what resemblance has for confidence |
| `Truths.InferenceSymmetries` | dnars/src/dnars/base/Truth.scala:43-77 | deduction and resemblance are symmetric; induction and abduction mirror each other, as do the two directions of analogy |
| `Truths.ComparisonCommutes` | dnars/src/dnars/base/Truth.scala:58-63 | comparison is symmetric wherever it is defined on the unit square |
| `Truths.ExpectationInUnit` | dnars/src/dnars/base/Truth.scala:93 | the expectation of a truth in the unit square is in the unit interval |
| `Truths.ExpectationIsMidpoint` | dnars/src/dnars/base/Truth.scala:93 | the expectation is the midpoint of conf*freq and 1-conf*(1-freq), and lies between the frequency and 1/2 |
| `Truths.ExpectationGrows` | dnars/src/dnars/base/Truth.scala:93 | at equal positive confidence it is strictly increasing in the frequency |
| `Terms.DecodeId` | dnars/src/dnars/graph/Wrappers.scala:67-79 | decoding the stored id of a term returns that term if and only if its parts are blank-free, its atom or last part is non-empty and an atom does not begin with a parenthesis; compounds without components included |
| `Terms.IdInjective` | dnars/src/dnars/base/Term.scala:43-77 | two storable terms with the same id are equal |
| `Statements.FamilyIffRegular` | dnars/src/dnars/base/Statement.scala:119-129 | there are one or three forms; they are pairwise distinct and each of them has the same set of forms, if and only if the placeholder is not the first argument |
| `Statements.RegularForms` | dnars/src/dnars/base/Statement.scala:119-129 | the forms of a regular statement are one family with one canonical (packed) member, which is among them |
| `Statements.IrregularForms` | dnars/src/dnars/base/Statement.scala:56-114 | with the placeholder as first argument a form is repeated, or one form's product statement is missing from the family |
| `Statements.PackUndoesUnpack` | dnars/src/dnars/base/Statement.scala:56-114 | each image of a product statement packs to it, followed by the other image, with the exact condition |
| `Statements.FormsPartition` | dnars/src/dnars/base/Statement.scala:119-129 | two regular statements that share one form share all forms |
| `Statements.FormsMeanTheSame` | dnars/src/dnars/base/Statement.scala:56-129 | all forms of a regular statement apply the same relation to the same arguments in the same order, when an image is read as its relation with the placeholder filled |
| `Facts.FormsOfSound` | dnars/src/dnars/graph/StatementAPI.scala:110-143 | all forms stored for a sound statement are distinct, sound, and of the same fact and truth |
| `Facts.FormsComplete` | dnars/src/dnars/graph/StatementAPI.scala:110-143 | and every sound statement of the same fact and truth is among them |
| `Facts.TruthIrrelevant` | dnars/src/dnars/graph/StatementAPI.scala:110-143 | fact, forms and soundness do not depend on the truth |
| `KnowledgeBase.AddRepresents` | dnars/src/dnars/graph/StatementAPI.scala:46-57 | from any faithful redundant copy of a ledger with one truth per fact, adding a sound statement throws nothing and gives the copy of the ledger with that fact entered or revised |
| `KnowledgeBase.AddNew` | dnars/src/dnars/graph/StatementAPI.scala:130-143 | the case of a new fact: the edges added keep at most one edge per subject, copula and predicate, and all forms of every edge |
| `KnowledgeBase.ReviseIs` | dnars/src/dnars/graph/StatementAPI.scala:101-128 | the case of a known fact: exactly the edges of that fact get the revised truth, and no lookup fails |
| `KnowledgeBase.RevisedRepresents` | dnars/src/dnars/graph/StatementAPI.scala:101-128 | such a revision keeps the copy faithful |
| `KnowledgeBase.SetTruthsOn` | dnars/src/dnars/graph/StatementAPI.scala:115-128 | setting the truths of statements that have one edge each never fails and changes those edges only |
| `KnowledgeBase.AddProper` | dnars/src/dnars/graph/StatementAPI.scala:46-57 | whatever the knowledge base, adding proper evidence keeps every truth proper |
| `KnowledgeBase.UnsoundBreaks` | dnars/src/dnars/graph/StatementAPI.scala:130-137 | adding a valid but unsound statement always leaves the store incoherent: two parallel edges, or an edge without one of its forms |
| `KnowledgeBase.SetTruthThrows` | dnars/src/dnars/graph/StatementAPI.scala:121-128 | setting a truth throws exactly when the statement has no edge or several, and then changes nothing |
| `KnowledgeBase.RevisedInAnyCase` | dnars/src/dnars/graph/StatementAPI.scala:101-128 | even in an incoherent store, where the revision may throw, the edge found gets the revised truth |
| `KnowledgeBase.IgnoredIffMisplaced` | dnars/src/dnars/graph/StatementAPI.scala:46-57 | an addition to a coherent store has no effect if and only if the statement is misplaced: an extensional image as subject, an intensional one as predicate, or a product related to another compound |
| `KnowledgeBase.ValidImages` | dnars/src/dnars/graph/StatementAPI.scala:76-87 | all forms of a valid inheritance are valid |
| `KnowledgeBase.ValidOpposite` | dnars/src/dnars/graph/StatementAPI.scala:76-87 | the mirrored form of a valid similarity is valid unless an image stands in it, in which case it is stored but cannot be stated |
| `KnowledgeBase.ValidProductsUnpack` | dnars/src/dnars/graph/StatementAPI.scala:76-87 | in a valid inheritance a binary product always relates to an atomic term, and so has its two images |
| `Confluence.RunRepresents` | dnars/src/dnars/graph/StatementAPI.scala:46-74 | every run of sound additions ends without an exception, as a faithful redundant copy of the ledger |
| `Confluence.EnterAllAccumulates` | dnars/src/dnars/graph/StatementAPI.scala:46-57 | that ledger holds on every fact the evidence it held before plus all evidence reported, in total and in favour |
| `Confluence.TruthIsEvidence` | dnars/src/dnars/graph/StatementAPI.scala:46-146 | in every knowledge base built from sound inputs a statement is an edge if and only if it is sound, its fact was reported in some form, and its truth is that of the total evidence reported on the fact |
| `Confluence.Confluence` | dnars/src/dnars/graph/StatementAPI.scala:46-146 | two runs that report the same facts with the same truths, in any order and in any valid forms, build the same edges with the same truths, each once |
| `Confluence.PermutationConfluence` | dnars/src/dnars/graph/StatementAPI.scala:46-74 | a permutation of the additions builds the same knowledge base |
| `Confluence.CoherentIffSound` | dnars/src/dnars/graph/StatementAPI.scala:46-57 | one more addition neither throws nor breaks coherence if and only if the statement is invalid (ignored) or sound |
| `Confluence.StaysCoherentIffSound` | dnars/src/dnars/graph/EdgeAPI.scala:42-56 | a run of proper inputs stays coherent and free of both exceptions if and only if all its valid inputs are sound |
| `Confluence.RunWellPlaced` | dnars/src/dnars/graph/StatementAPI.scala:76-87 | whatever is added, sound or not, no inheritance edge is ever misplaced |
| `Confluence.NothingAfterException` | dnars/src/dnars/graph/StatementAPI.scala:67-74 | after the first exception nothing more is added |
| `Confluence.ReflexiveSimilarityFails` | dnars/src/dnars/graph/StatementAPI.scala:130-137 | adding a ~ a stores two parallel edges, and adding it again throws for multiple edges |
| `Confluence.PlaceholderArgumentFails` | dnars/src/dnars/graph/StatementAPI.scala:115-128 | a concrete statement with the placeholder as first argument, after which adding one of its stored images throws for a missing edge |
| `Confluence.DoublePlaceholderFails` | dnars/src/dnars/graph/StatementAPI.scala:115-128 | a concrete statement with the placeholder as both arguments, which throws for multiple edges when it is added again |
| `Store.LookupRefines` | dnars/src/dnars/graph/EdgeAPI.scala:42-56 | looking an edge up by vertex strings and label finds exactly the edges that match the statement structurally |
| `Store.LookupMissing` | dnars/src/dnars/graph/EdgeAPI.scala:42-56 | with a missing vertex there is no such edge |
| `Store.MoreVertices` | dnars/src/dnars/graph/VertexAPI.scala:47-55 | a new vertex keeps one vertex per term and changes no statement |
| `Store.StoredKeysAgree` | dnars/src/dnars/graph/Wrappers.scala:51-63 | ordering by the stored keys is ordering by the keys recomputed from the truths and terms |
| `Store.BestNeighboursAreBest` | dnars/src/dnars/graph/VertexAPI.scala:57-87 | the best neighbours are as many as the limit or the degree allows, in descending order, none left out scoring higher, and they are exactly incident statements |
| `Store.RankingKeyMonotone` | dnars/src/dnars/graph/Wrappers.scala:51-63 | a larger expectation never gets a smaller key |
| `Store.RankingKeyBounds` | dnars/src/dnars/graph/Wrappers.scala:51-63 | keys are between 0 and 1000 |
| `Store.KeyIsScore` | dnars/src/dnars/graph/Wrappers.scala:51-63 | the key is expectation per complexity in whole thousandths, rounded down |
| `Store.FrequencyGap` | dnars/src/dnars/graph/Wrappers.scala:51-63 | at equal confidence and complexity two scores differ by the confidence's part of the frequencies, per complexity |
| `Store.SimplicityScores` | dnars/src/dnars/graph/Wrappers.scala:51-63 | at equal truths the term of smaller complexity scores strictly more |
| `Store.LargerFrequencyFirst` | dnars/src/dnars/graph/VertexAPI.scala:57-87 | at equal confidence and complexity a neighbour of larger frequency is never behind, nor left out beside the other, but for equal keys; a thousandth more puts it in front |
| `Store.SimplerFirst` | dnars/src/dnars/graph/VertexAPI.scala:57-87 | the same, at equal truths, of a neighbour of smaller complexity |
| `Ranking.TopIsBest` | dnars/src/dnars/graph/VertexAPI.scala:57-87 | cutting an ordered result off at a limit keeps the best candidates |
| `Graph.DNarsGraph.GetV` | dnars/src/dnars/graph/VertexAPI.scala:39-45 | the vertex of a term is the one stored under its id |
| `Graph.DNarsGraph.GetOrAddV` | dnars/src/dnars/graph/VertexAPI.scala:47-55 | returns the one vertex of the term, adding it when missing; no statement changes |
| `Graph.DNarsGraph.SetEdgeTruth` | dnars/src/dnars/graph/Wrappers.scala:51-63 | setting a truth changes that edge only, and refreshes both ranking keys |
| `Graph.DNarsGraph.AddE` | dnars/src/dnars/graph/EdgeAPI.scala:36-40 | inserts one edge with its truth and ranking keys |
| `Graph.DNarsGraph.GetE` | dnars/src/dnars/graph/EdgeAPI.scala:42-56 | none, the only one, or the exception for several, as the structural matches are |
| `Graph.DNarsGraph.AddStatementEdge` | dnars/src/dnars/graph/StatementAPI.scala:145-146 | appends one statement, creating its vertices |
| `Graph.DNarsGraph.SetTruthValue` | dnars/src/dnars/graph/StatementAPI.scala:121-128 | sets the truth of the one edge of a statement, or fails with the state unchanged |
| `Graph.DNarsGraph.ReviseOppositeEdge` | dnars/src/dnars/graph/StatementAPI.scala:110-113 | sets the truth of the mirrored similarity |
| `Graph.DNarsGraph.ReviseImages` | dnars/src/dnars/graph/StatementAPI.scala:115-119 | sets the truths of the other forms in turn, up to the first failure |
| `Graph.DNarsGraph.ReviseExistingStatement` | dnars/src/dnars/graph/StatementAPI.scala:101-108 | revises the edge found and then its other forms, as the specification of the knowledge base does |
| `Graph.DNarsGraph.AddNewImages` | dnars/src/dnars/graph/StatementAPI.scala:139-143 | appends the other forms |
| `Graph.DNarsGraph.AddNewStatement` | dnars/src/dnars/graph/StatementAPI.scala:130-137 | appends the statement with all its forms |
| `Graph.DNarsGraph.Add` | dnars/src/dnars/graph/StatementAPI.scala:46-57 | on the string-keyed store with cached keys, does what the specification does on statements, with the same exception, and announces one ADDED or UPDATED event |
| `Graph.DNarsGraph.AddAll` | dnars/src/dnars/graph/StatementAPI.scala:67-74 | adds in turn up to the first exception, ends unpaused, and has announced the events of the run |
| `Graph.DNarsGraph.GetAll` | dnars/src/dnars/graph/StatementAPI.scala:151-163 | returns the packed statements in edge order |
| `Graph.DNarsGraph.GetBestPredicates` | dnars/src/dnars/graph/VertexAPI.scala:57-71 | the terms of the best predicates by recomputed key |
| `Graph.DNarsGraph.GetBestSubjects` | dnars/src/dnars/graph/VertexAPI.scala:73-87 | the terms of the best subjects by recomputed key |
| `Graph.DNarsGraph.IterableToList` | dnars/src/dnars/graph/VertexAPI.scala:89-95 | the terms of the found vertices, in order |
| `Enumeration.LosslessEnumeration` | dnars/src/dnars/graph/StatementAPI.scala:151-163 | in every knowledge base built from sound inputs getAll lists each inheritance family once and each similarity in both directions, its expansion by allImages is exactly the edge set, and the visit of all statements sees the same set |
| `Enumeration.VisitedIsPacked` | dnars/src/dnars/graph/DNarsGraph.scala:114-129 | forEachStatement visits exactly the packed statements |
| `Enumeration.FirstAddedThenUpdated` | dnars/src/dnars/graph/StatementAPI.scala:46-57 | the event stream holds, per fact, one ADDED followed only by UPDATED, whatever forms were added |
| `Enumeration.AllAreAnnounced` | dnars/src/dnars/graph/StatementAPI.scala:46-57 | for sound inputs the statements of the event stream are exactly the valid statements, each once and in order |
| `Enumeration.SilentIffWithoutEffect` | dnars/src/dnars/graph/StatementAPI.scala:46-57 | one addition announces its statement once, and nothing when it is ignored or throws |
| `Enumeration.ObserversSeeFacts` | dnars/src/dnars/graph/StatementAPI.scala:67-74 | in any interleaving with the dispatcher an observer of a batch of additions sees a beginning of its stream, per fact one ADDED and then only UPDATED; once nothing is pending it has seen exactly the valid statements, each once and in order |
| `RoundTrip.ParseInvertsPrint` | dnars/src/dnars/base/StatementParser.scala:37-84 | parsing the printed statement returns it if and only if the grammar can produce it and its truth is in hundredths |
| `RoundTrip.ParsePrint` | dnars/src/dnars/base/StatementParser.scala:37-84 | for any producible statement the round trip keeps everything but rounds the truth to hundredths |
| `RoundTrip.ParsePrintable` | dnars/src/dnars/base/StatementParser.scala:37-84 | whatever the parser returns is producible, so printing and parsing it again keeps its structure |
| `RoundTrip.InfixIffPrefix` | dnars/src/dnars/base/StatementParser.scala:46-52 | infix and prefix notation parse alike if and only if the first atom does not begin with a connector character, or is the connector itself in front of a single pair |
| `RoundTrip.InfixMisreads` | dnars/src/dnars/base/StatementParser.scala:46-52 | what the ordered choice reads otherwise: the prefix parser takes the first character for the connector |
| `RoundTrip.ParsedIsGood` | dnars/src/dnars/base/StatementParser.scala:41-60 | terms of a parsed statement are decoded from their stored ids as they were |
| `RoundTrip.RoundedIsNearest` | dnars/src/dnars/base/Truth.scala:108 | printing keeps the nearest hundredth |
| `Numerals.PointedNumber` | dnars/src/dnars/base/StatementParser.scala:38 | a numeral with a point and any number of decimals is worth the number that all its digits write, divided by ten for each decimal |
| `Numerals.WholeNumber` | dnars/src/dnars/base/StatementParser.scala:38 | without a point, or with one at the end, it is the whole number |
| `Numerals.ZerosAside` | dnars/src/dnars/base/StatementParser.scala:38 | a further zero behind the decimals, or in front, changes nothing |
| `Questions.ParseSubjectQuestion` | dnars/src/dnars/base/StatementParser.scala:71-76 | a question for the subject parses to the question mark as subject, with the truth (1.0,0.9) |
| `Questions.ParsePredicateQuestion` | dnars/src/dnars/base/StatementParser.scala:71-76 | a question for the predicate parses to the question mark as predicate if and only if the subject does not itself begin with a question mark and a copula |
| `Questions.NothingBehind` | dnars/src/dnars/base/StatementParser.scala:78-84 | behind a statement nothing but white space is accepted |
| `Questions.SpaceInFront` | dnars/src/dnars/base/StatementParser.scala:78-84 | white space in front makes no difference |
| `Questions.AtomTextIs` | dnars/src/dnars/base/StatementParser.scala:41 | an atom is any non-empty text without white space and parentheses |
| `Percepts.HeldIsCurrent` | siebog/src/siebog/jasonee/environment/UserEnvironment.java:102-310 | after any operations, an agent that asks and keeps its last non-null list holds exactly what consultPercepts returns; neither the common nor any private list has duplicates |
| `Percepts.HeldIsCommonThenOwn` | siebog/src/siebog/jasonee/environment/UserEnvironment.java:102-163 | after any operations and one more request the agent holds the common percepts and behind them its own |
| `Percepts.PerceivesHistory` | siebog/src/siebog/jasonee/environment/UserEnvironment.java:102-310 | it holds exactly the percepts that were added, for all or for it, and not removed since |
| `Percepts.AddedIsPerceived` | siebog/src/siebog/jasonee/environment/UserEnvironment.java:102-173 | an added common percept is in every agent's next list until it is removed |
| `Percepts.MarkLostExactly` | siebog/src/siebog/jasonee/environment/UserEnvironment.java:166-310 | exactly which operations make a marked agent ask anew |
| `Percepts.OrderKept` | siebog/src/siebog/jasonee/environment/UserEnvironment.java:166-281 | a new percept goes behind all others, and what a removal leaves stays in order |
| `Percepts.StepInv` | siebog/src/siebog/jasonee/environment/UserEnvironment.java:102-310 | every operation keeps: a marked agent was last given its current percepts, and no list has duplicates |
| `Percepts.RunInv` | siebog/src/siebog/jasonee/environment/UserEnvironment.java:102-310 | so does every sequence of operations |
| `Percepts.CommonEffects` | siebog/src/siebog/jasonee/environment/UserEnvironment.java:166-217 | which percepts the common list holds after each operation on it, and that private lists stay |
| `Percepts.OwnEffects` | siebog/src/siebog/jasonee/environment/UserEnvironment.java:228-303 | which percepts an agent's list holds after each operation on it, and that the common list and all other agents' lists stay |
| `Percepts.AllCleared` | siebog/src/siebog/jasonee/environment/UserEnvironment.java:306-310 | after all percepts are cleared no agent perceives anything |
| `Percepts.NullWhileUndisturbed` | siebog/src/siebog/jasonee/environment/UserEnvironment.java:102-134 | an agent that has asked is answered null again, and rightly, as long as agents only ask and other agents' lists are changed |
| `Percepts.UserEnvironment.GetPercepts` | siebog/src/siebog/jasonee/environment/UserEnvironment.java:102-134 | null exactly for a marked agent, else the current view; marks the agent |
| `Percepts.UserEnvironment.ConsultPercepts` | siebog/src/siebog/jasonee/environment/UserEnvironment.java:142-163 | the current view, changing nothing |
| `Percepts.UserEnvironment.AddPercept` | siebog/src/siebog/jasonee/environment/UserEnvironment.java:166-173 | a null or known percept changes nothing; a new one is appended and all marks go |
| `Percepts.UserEnvironment.RemovePercept` | siebog/src/siebog/jasonee/environment/UserEnvironment.java:176-182 | removes one occurrence and all marks; tells whether it was there |
| `Percepts.UserEnvironment.RemovePerceptsByUnif` | siebog/src/siebog/jasonee/environment/UserEnvironment.java:192-209 | removes all unifying percepts, counts them, and unmarks if any |
| `Percepts.UserEnvironment.Iterate` | siebog/src/siebog/jasonee/environment/UserEnvironment.java:196-203 | the loop of removal while iterating keeps exactly the elements that do not match, in order |
| `Percepts.UserEnvironment.ClearPercepts` | siebog/src/siebog/jasonee/environment/UserEnvironment.java:212-217 | empties a non-empty common list and unmarks all |
| `Percepts.UserEnvironment.ContainsPercept` | siebog/src/siebog/jasonee/environment/UserEnvironment.java:220-225 | membership in the common list, false for null |
| `Percepts.UserEnvironment.AddAgentPercepts` | siebog/src/siebog/jasonee/environment/UserEnvironment.java:228-242 | appends the unknown ones in turn and unmarks the agent with each |
| `Percepts.UserEnvironment.RemoveAgentPercept` | siebog/src/siebog/jasonee/environment/UserEnvironment.java:245-254 | removes one occurrence of the agent's percept and its mark |
| `Percepts.UserEnvironment.RemoveAgentPerceptsByUnif` | siebog/src/siebog/jasonee/environment/UserEnvironment.java:261-281 | removes and counts the agent's unifying percepts, and unmarks it if any |
| `Percepts.UserEnvironment.ClearAgentPercepts` | siebog/src/siebog/jasonee/environment/UserEnvironment.java:295-303 | empties the agent's list and unmarks it |
| `Percepts.UserEnvironment.ClearAllPercepts` | siebog/src/siebog/jasonee/environment/UserEnvironment.java:306-310 | empties the common list and every agent's list, with their marks |
| `PerceptsConcurrent.MutateFirstSafe` | siebog/src/siebog/jasonee/environment/UserEnvironment.java:107-133 | in every interleaving of one reader per agent with any mutate-then-invalidate operations, an idle reader's marked agent was last given the current view whenever no mutator is between its halves |
| `PerceptsConcurrent.UndisturbedRead` | siebog/src/siebog/jasonee/environment/UserEnvironment.java:102-134 | the atomic steps of an undisturbed reader do what the sequential operation does |
| `PerceptsConcurrent.InvalidateFirstStale` | siebog/src/siebog/jasonee/environment/UserEnvironment.java:176-182 | the removal of a common percept, which invalidates first: a reader between its halves marks its agent and keeps the removed percept, while the agent perceives nothing |
| `PerceptsConcurrent.SafeIffMutateFirst` | siebog/src/siebog/jasonee/environment/UserEnvironment.java:166-209 | of the two orders exactly mutate-then-invalidate is safe over all runs |
| `Barrier.SingleLiveAlarm` | siebog/src/siebog/interaction/bsp/BarrierBean.java:64-136 | for any messages and any liveness answers: processing within registered and empty exactly with it, one outstanding timeout of the current superstep once started and none of a later one, and the superstep grows by one exactly when processing is refilled |
| `Barrier.ReceiveInv` | siebog/src/siebog/interaction/bsp/BarrierBean.java:64-136 | the same for one message from any such state |
| `Barrier.BarrierInvariant` | siebog/src/siebog/interaction/bsp/BarrierBean.java:45-62 | the same for any sequence of messages |
| `Barrier.AdvancesExactly` | siebog/src/siebog/interaction/bsp/BarrierBean.java:64-102 | a registration starts a superstep exactly when it is the first; a departure or completion exactly when it is the last one waited for and somebody is left |
| `Barrier.TimeoutExactly` | siebog/src/siebog/interaction/bsp/BarrierBean.java:83-92 | a current timeout drops exactly the dead, and starts a superstep exactly when nobody waited for is alive |
| `Barrier.Ignored` | siebog/src/siebog/interaction/bsp/BarrierBean.java:45-62 | an outdated timeout and any other message change and post nothing |
| `Barrier.SuperstepEnds` | siebog/src/siebog/interaction/bsp/BarrierBean.java:70-102 | once everybody waited for has completed or left, in any order and with any other messages between, the superstep has grown, unless nobody is registered |
| `Barrier.FilterKeepsAlive` | siebog/src/siebog/interaction/bsp/BarrierBean.java:126-136 | the living remain whatever the order of asking, and every re-signal carries the current superstep to agents still waited for or not yet found dead |
| `Barrier.BarrierBean.RegisterAgent` | siebog/src/siebog/interaction/bsp/BarrierBean.java:64-68 | the new state and messages of a registration |
| `Barrier.BarrierBean.DeregisterAgent` | siebog/src/siebog/interaction/bsp/BarrierBean.java:70-76 | the new state and messages of a departure |
| `Barrier.BarrierBean.AgentCompletedSuperstep` | siebog/src/siebog/interaction/bsp/BarrierBean.java:78-81 | the new state and messages of a completion |
| `Barrier.BarrierBean.OnTimeout` | siebog/src/siebog/interaction/bsp/BarrierBean.java:83-92 | the new state and messages of a timeout, for some order of asking each waited-for agent once |
| `Barrier.BarrierBean.NextSuperstepIfPossible` | siebog/src/siebog/interaction/bsp/BarrierBean.java:94-102 | refills, signals and sets the alarm exactly when nobody is waited for and somebody is registered, and tells so |
| `Barrier.BarrierBean.FilterUnavailableAgents` | siebog/src/siebog/interaction/bsp/BarrierBean.java:126-136 | the removal while iterating, against its specification |
| `Lockstep.LockstepIffNoAlarm` | siebog/src/siebog/interaction/bsp/BarrierBean.java:64-117 | over every run with delivery in any order, no re-registration and late completions of departed agents, no superstep is signalled before all receivers of the one before have executed it or were deregistered, and every agent executes consecutive supersteps once each: if and only if the current alarm does not fire |
| `Lockstep.JoinsAndLeaves` | siebog/src/siebog/interaction/bsp/BarrierManager.java:18-38 | a subscription that is sent can arrive and registers its agent, and a cancellation removes it |
| `Lockstep.NobodyStuck` | siebog/src/siebog/interaction/bsp/BarrierBean.java:78-102 | for every agent that the barrier waits for either its signal can be executed, which sends its completion, or its completion can arrive, after which the barrier waits for it no more or has gone on |
| `Lockstep.NextInv` | siebog/src/siebog/agents/BSPAgent.java:40-44 | one event keeps at most one exchange per agent under way, and it is the one the barrier waits for |
| `Lockstep.RunInv` | siebog/src/siebog/interaction/bsp/BarrierManager.java:18-50 | so does every run |
| `Lockstep.AlarmBreaksLockstep` | siebog/src/siebog/interaction/bsp/BarrierBean.java:126-136 | a lone slow agent that is signalled twice: the barrier reaches superstep 3 although superstep 2 was not executed |
| `CycleControl.MembershipConserved` | siebog/src/siebog/jasonee/control/ExecutionControlBean.java:104-157 | in every run registered united with pending is the set of agents added and not since removed, running is within registered and empty exactly when there are no members, cycles are consecutive and announced to exactly the members |
| `CycleControl.AddedMidCycle` | siebog/src/siebog/jasonee/control/ExecutionControlBean.java:146-149 | an agent added while others run takes no part in that cycle and, if it stays, takes part in the next |
| `CycleControl.JoinsNextCycle` | siebog/src/siebog/jasonee/control/ExecutionControlBean.java:104-114 | the same for any pending agent, over any continuation |
| `CycleControl.ProceedsExactly` | siebog/src/siebog/jasonee/control/ExecutionControlBean.java:133-157 | a cycle starts exactly when the last running agent finishes or leaves with others left, or the first member arrives |
| `CycleControl.CompletionExactly` | siebog/src/siebog/jasonee/control/ExecutionControlBean.java:126-143 | a completion takes exactly that agent out of the running ones and changes nothing else; the last one starts a cycle of all members |
| `CycleControl.DepartureExactly` | siebog/src/siebog/jasonee/control/ExecutionControlBean.java:152-157 | the exact state after a departure |
| `CycleControl.ArrivalExactly` | siebog/src/siebog/jasonee/control/ExecutionControlBean.java:146-149 | the exact state after an arrival |
| `CycleControl.CycleEnds` | siebog/src/siebog/jasonee/control/ExecutionControlBean.java:126-157 | once every agent running now has finished or been removed, in any order and with any other operations between, the cycle number has grown, unless no member is left |
| `CycleControl.TimeoutOnlyRearms` | siebog/src/siebog/jasonee/control/ExecutionControlBean.java:87-94 | a timeout never starts a cycle or changes the members; a current one only sets the timer again |
| `CycleControl.TimerNeverLost` | siebog/src/siebog/jasonee/control/ExecutionControlBean.java:77-122 | timers of the current cycle plus executor tasks that have still to set theirs are always one more than the tasks left when the cycle started: the timer is never lost, and once all tasks are through it is single if and only if none was left then |
| `CycleControl.TwoTimersOfOneCycle` | siebog/src/siebog/jasonee/control/ExecutionControlBean.java:116-122 | a run in which an agent finishes before the task has set its timer: two timers carry cycle 2, and none carried cycle 1 just after it started |
| `CycleControl.AnnouncedOnce` | siebog/src/siebog/jasonee/control/ExecutionControlBean.java:112-119 | every cycle is announced by exactly one message, to its members, posted or still with its task; nothing else is posted |
| `CycleControl.ExecutionControlBean.Init` | siebog/src/siebog/jasonee/control/ExecutionControlBean.java:68-75 | starts empty with a timer for cycle 0 |
| `CycleControl.ExecutionControlBean.InformAllAgsToPerformCycle` | siebog/src/siebog/jasonee/control/ExecutionControlBean.java:104-123 | pending agents join, all registered run, and one task is queued for an executor thread |
| `CycleControl.ExecutionControlBean.RunTask` | siebog/src/siebog/jasonee/control/ExecutionControlBean.java:116-122 | the two steps of the task: its own message, then a timer for the cycle of that moment |
| `CycleControl.ExecutionControlBean.AgentFinished` | siebog/src/siebog/jasonee/control/ExecutionControlBean.java:126-131 | the new state and messages of a completion |
| `CycleControl.ExecutionControlBean.NextCycleIfPossible` | siebog/src/siebog/jasonee/control/ExecutionControlBean.java:133-143 | starts a cycle exactly when there are members and none runs, and tells so |
| `CycleControl.ExecutionControlBean.Add` | siebog/src/siebog/jasonee/control/ExecutionControlBean.java:146-149 | the new state and messages of an arrival |
| `CycleControl.ExecutionControlBean.Remove` | siebog/src/siebog/jasonee/control/ExecutionControlBean.java:152-157 | the new state and messages of a departure |
| `CycleControl.ExecutionControlBean.Timeout` | siebog/src/siebog/jasonee/control/ExecutionControlBean.java:87-94 | the new state and messages of a timeout |
| `Events.NoLostEventOrWakeup` | dnars/src/dnars/events/EDT.scala:53-77 | in every interleaving of one producer with the dispatcher, dispatched batches, the batch in hand and the pending list are the added events in order; with the producer idle and unpaused, a non-empty list means the dispatcher is not waiting |
| `Events.ThreeStepsDrain` | dnars/src/dnars/events/EDT.scala:53-77 | from every such state three undisturbed steps of the dispatcher dispatch everything added |
| `Events.PauseHoldsBack` | dnars/src/dnars/events/EventManager.scala:17-48 | until a pause is lifted a waiting dispatcher is not woken by additions, dispatches nothing, and all that is added stays pending |
| `Events.PausedFromNow` | dnars/src/dnars/events/EventManager.scala:33-48 | so it is from the moment at which the producer pauses |
| `Events.LiftedWakes` | dnars/src/dnars/events/EventManager.scala:39-48 | lifting a pause wakes the dispatcher when something has been held back |
| `Events.ObserverSeesAll` | dnars/src/dnars/events/EDT.scala:73-77 | an observer registered once is given exactly the batches dispatched while it is, each once and in order |
| `Events.RemovedSeesNoMore` | dnars/src/dnars/events/EventManager.scala:25-31 | a removed observer that was registered once is given no further batch |
| `Events.ObserverGetsBatch` | dnars/src/dnars/events/EventManager.scala:17-48 | for events added in one paused batch, in any interleaving, what an observer has been given, the batch in hand and the pending list are those events in order |
| `Events.EventQueue.Add` | dnars/src/dnars/events/EventManager.scala:17-23 | appends, and notifies unless paused |
| `Events.EventQueue.SetPaused` | dnars/src/dnars/events/EventManager.scala:39-43 | the pause setter up to its inner lock |
| `Events.EventQueue.NotifyAfterPause` | dnars/src/dnars/events/EventManager.scala:43-46 | the inner lock: notifies when events are pending |
| `Events.EventQueue.WaitForEvents` | dnars/src/dnars/events/EDT.scala:62-71 | waits on an empty list, or takes the whole list at once |
| `Events.EventQueue.Dispatch` | dnars/src/dnars/events/EDT.scala:73-77 | the loop hands the taken batch to every registered observer in turn |
| `AntTour.ReportedTourIsRight` | siebog/src/siebog/agents/xjaf/aco/tsp/Ant.java:127-243 | on a map where no closed tour is without weight, whatever the draws and pheromones, every tour sent as UpdateBestTour visits 0..n-1 once each and returns to its first node, and its reported weight is the sum of the edge weights along it |
| `AntTour.SentIsRight` | siebog/src/siebog/agents/xjaf/aco/tsp/Ant.java:127-271 | whatever an ant has sent is a question about nodes of the map, the right report of a closed tour, or an update of an edge of the map by the inverse weight of a tour that it has reported |
| `AntTour.TourStartsWhereDrawn` | siebog/src/siebog/agents/xjaf/aco/tsp/Ant.java:113-117 | the reported tour starts and ends at the node that was drawn for the ant |
| `AntTour.NodeIsDrawn` | siebog/src/siebog/agents/xjaf/aco/tsp/Ant.java:168-187 | the node that joins the tour is the one at the drawn place among those on offer |
| `Distances.ToursPositiveIffApart` | siebog/src/siebog/agents/xjaf/aco/tsp/Map.java:249-254 | for distances all closed tours have a weight if and only if the nodes are not all in one place; two nodes may share one |
| `Distances.InitialLevelIffApart` | siebog/src/siebog/agents/xjaf/aco/tsp/Map.java:203-206 | the initial pheromone level is defined, and positive, on exactly these maps |
| `AntTour.AntCompletes` | siebog/src/siebog/agents/xjaf/aco/tsp/Ant.java:224-271 | no run is longer than 3n+2 messages, and it is over exactly after that many, when the ant has sent one report and then exactly n pheromone updates, one per edge of the closed tour in reverse order |
| `AntTour.RunInv` | siebog/src/siebog/agents/xjaf/aco/tsp/Ant.java:105-273 | every phase keeps the open path, its weights and their sum aligned, and every step brings the end nearer by one |
| `AntTour.NeverStuck` | siebog/src/siebog/agents/xjaf/aco/tsp/Ant.java:105-273 | until the end some node is on offer when the wheel turns, and the next message can be handled, for any start and any choice among those on offer |
| `Colony.ClosedTourVisitsAll` | siebog/src/siebog/agents/xjaf/aco/tsp/Ant.java:201-216 | a closed tour of n nodes visits every node |
| `Colony.PathWeightAdds` | siebog/src/siebog/agents/xjaf/aco/tsp/Ant.java:287-293 | the weight of a path is that of a single edge, and adds up over paths with a node in common |
| `Colony.SomeUnvisited` | siebog/src/siebog/agents/xjaf/aco/tsp/Ant.java:295-302 | while the tour is shorter than the map some node is offered |
| `AntAgent.WheelTurns` | siebog/src/siebog/agents/xjaf/aco/tsp/Ant.java:147-165 | with positive levels inside the map and weights that are not negative, the reply to the ant's own question has a pair per offered node, at least one, with a positive level each |
| `Roulette.WheelIsFair` | siebog/src/siebog/agents/xjaf/aco/tsp/Ant.java:154-176 | every offered node is chosen by some draw if and only if no offered weight is 0 or only one node is on offer |
| `Roulette.StopsAtLast` | siebog/src/siebog/agents/xjaf/aco/tsp/Ant.java:154-176 | an offered weight of 0 attracts infinitely, all probabilities are 0 or NaN, and every draw stops at the last offered node |
| `Roulette.StopsInShare` | siebog/src/siebog/agents/xjaf/aco/tsp/Ant.java:163-176 | otherwise the draws that choose a node are an interval as long as its share of the total attraction |
| `Roulette.AttractionIsLevelOverFifthPower` | siebog/src/siebog/agents/xjaf/aco/tsp/Ant.java:154-160 | an edge attracts in proportion to its level and inversely to the fifth power of its weight |
| `AntAgent.AntBean.GetPotentialNodeIndices` | siebog/src/siebog/agents/xjaf/aco/tsp/Ant.java:295-302 | exactly the nodes not on the tour, ascending |
| `AntAgent.AntBean.ReadLevels` | siebog/src/siebog/agents/xjaf/aco/tsp/Ant.java:147-160 | attractions, infinite ones included, and weights under the index of their pair, and the total |
| `AntAgent.AntBean.Normalize` | siebog/src/siebog/agents/xjaf/aco/tsp/Ant.java:163-165 | each attraction over the total |
| `AntAgent.AntBean.Choose` | siebog/src/siebog/agents/xjaf/aco/tsp/Ant.java:168-176 | the first index at which the accumulated probability exceeds the draw, or the last |
| `AntAgent.AntBean.Spin` | siebog/src/siebog/agents/xjaf/aco/tsp/Ant.java:147-187 | the chosen index is one of the offered, and the weight is the one beside it in the reply |
| `AntAgent.AntBean.MoveOn` | siebog/src/siebog/agents/xjaf/aco/tsp/Ant.java:142-217 | phase 2 with its loops does what the specification of the move does for the index the wheel stops at |
| `AntAgent.AntBean.Receive` | siebog/src/siebog/agents/xjaf/aco/tsp/Ant.java:105-273 | every phase with its loops updates the fields and sends the messages of the specification |
| `AntAgent.AntBean.RemoveLastNode` | siebog/src/siebog/agents/xjaf/aco/tsp/Ant.java:333-343 | removes and returns the last node, or -1 |
| `TspMap.BestOfAccepted` | siebog/src/siebog/agents/xjaf/aco/tsp/Map.java:109-132 | for any reports: the best weight is the least of those accepted and belongs to the stored tour, and the map is done exactly when a report arrives after 500 accepted ones in a row brought no improvement |
| `TspMap.LightestIs` | siebog/src/siebog/agents/xjaf/aco/tsp/Map.java:119-128 | the least weight is at most every report's, and is one of them or the initial maximum |
| `TspMap.PheromoneBounds` | siebog/src/siebog/agents/xjaf/aco/tsp/Map.java:133-145 | over any changes that are local or by the inverse weight of a report every pheromone stays positive and at most the larger of tau0 and the inverse of the lightest reported tour |
| `Foraging.SwarmIsRight` | siebog/src/siebog/agents/xjaf/aco/tsp/Ant.java:105-273 | a map and any number of ants, every message in any order and every reply from the levels of its moment: in every reachable state all levels are positive and at most the larger of tau0 and the inverse of the lightest report, every report is right, every ant that has not ended has exactly one message to come, and every reply turns the wheel |
| `Foraging.RightOnEveryMap` | siebog/src/siebog/agents/xjaf/aco/tsp/Map.java:80-145 | the same for every map whose nodes are not all in one place, from the level that it starts with |
| `Foraging.BestIsRight` | siebog/src/siebog/agents/xjaf/aco/tsp/Map.java:109-132 | in every such state the tour held best is a closed tour, counted from 1, of exactly the best weight, and no accepted report was lighter |
| `TspMap.LevelsMoveToTarget` | siebog/src/siebog/agents/xjaf/aco/tsp/Map.java:133-145 | every update moves a level strictly towards its target, the inverse of the reported weight or tau0, without reaching it |
| `TspMap.DistanceShrinks` | siebog/src/siebog/agents/xjaf/aco/tsp/Map.java:133-145 | and the distance to the target shrinks by exactly the factor that is kept |
| `TspMap.MapBean.constructor` | siebog/src/siebog/agents/xjaf/aco/tsp/Map.java:203-210 | every pheromone starts at tau0, the inverse of the sum of all weights |
| `TspMap.MapBean.GetAverageWeight` | siebog/src/siebog/agents/xjaf/aco/tsp/Map.java:219-226 | the mean over all ordered pairs |
| `Distances.AllSumAdds` | siebog/src/siebog/agents/xjaf/aco/tsp/Map.java:219-226 | the sum of all weights is additive |
| `Distances.AllSumSingle` | siebog/src/siebog/agents/xjaf/aco/tsp/Map.java:219-226 | and counts every ordered pair of nodes once |
| `TspMap.MapBean.OnRequest` | siebog/src/siebog/agents/xjaf/aco/tsp/Map.java:90-107 | the reply that the ant's protocol is proved against |
| `TspMap.MapBean.LevelReply` | siebog/src/siebog/agents/xjaf/aco/tsp/Map.java:90-101 | a pheromone and a weight per asked node, in the order of the question |
| `TspMap.MapBean.OnUpdateBestTour` | siebog/src/siebog/agents/xjaf/aco/tsp/Map.java:109-132 | the new search state after a report |
| `TspMap.MapBean.OnUpdatePheromone` | siebog/src/siebog/agents/xjaf/aco/tsp/Map.java:133-145 | exactly the one directed edge changes, by the evaporation formula of the message |
| `TspMap.MapBean.GetPheromoneLevel` | siebog/src/siebog/agents/xjaf/aco/tsp/Map.java:235-237 | the level of that edge |
| `TspMap.MapBean.SetPheromoneLevel` | siebog/src/siebog/agents/xjaf/aco/tsp/Map.java:242-244 | exactly that edge changes |

## Left out

- Titan, Cassandra, Gremlin, JMS, EJB lookup and deployment: replaced by sequences, maps, message lists and parameters.
- Floating-point rounding, int overflow, number-formatting locale, and infinities outside the roulette wheel: arithmetic is exact, and "%.2f" rounds half up with a point.
- The text form "freq_conf" of an edge's truth: the edge holds the truth itself.
- Confidences 0 and 1 in additions: revision may divide by zero there; `Truths.RevisionDefined` says exactly when.
- Unusual terms in the graph class: its methods ask for terms as the parser produces them (`RoundTrip.ParsedIsGood`); `Terms.DecodeId` says which others would survive storage.
- Statement and truth equality to hundredths (Truth.scala 100-106): model equality is exact.
- Graph.DNarsGraph.Add: the event holds the statement where the code holds its text.
- Graph.DNarsGraph.GetBestPredicates: among equal keys the order is one fixed choice, where the database may take any; the same holds of `GetBestSubjects`.
- `answer`, `include`, `assertStatementExists`, `backwardInference`, forward inference: they add thin queries, or depend on engines that are not part of this model.
- `Truth.choice`: a comparison of two confidences that nothing in the modelled code calls.
- PerceptsConcurrent.MutateFirstSafe: an operation that mutates has two atomic halves; the check for a known percept before its addition belongs to the first, so two concurrent additions of the same percept are not told apart from one. The mutators that invalidate first appear only as the unsafe order.
- Percepts: `informAgsEnvironmentChanged`, actions, the private `containsPercept` and null agent names; unification is any predicate on literals.
- Store.LargerFrequencyFirst: keys are whole thousandths, so that of two neighbours with the same key either may come first.
- Lockstep.LockstepIffNoAlarm: agents subscribe once, delivery is reliable, and every superstep message leads to one completion.
- Barrier.BarrierBean.OnTimeout: the answers to the pings are given together, as one set.
- CycleControl: custom `UserExecutionControl` objects and external calls of `informAllAgsToPerformCycle`; breakpoints are ignored as in the code. A task's two steps are atomic, and each reads the fields as they are then.
- CycleControl.TimerNeverLost: a timeout for cycle -1, which the code accepts at any time and no timer of its own carries, is outside these runs; `CycleControl.TimeoutOnlyRearms` covers it.
- Events.NoLostEventOrWakeup: one producer; several would take the two locks in opposite orders. Observer exceptions and interrupts are not modelled; a dispatch to all observers is one step, as its lock makes it.
- AntTour: the texts of messages are lists of their words; the question for the map's size and the start of a successor ant are not modelled.
- AntAgent.AntBean.Receive: in phase 2 asks for a reply with one pair of words per offered node and in phase 4 for a tour with a weight, as `Foraging.SwarmIsRight` shows them to be; there is one zero, and numbers are not rounded.
- AntTour.AntCompletes: asks for at least two nodes and that no closed tour is without weight (`Distances.ToursPositiveIffApart`): the inverse of a tour's weight is what the ant sends.
- TspMap.MapBean.constructor: the distance between nodes is any function of two nodes, where the code takes the Euclidean one of parsed coordinates; a map without nodes or with all nodes in one place, where the code divides by zero, the map file and the cancel message are not modelled.
- Foraging.SwarmIsRight: an ant that is answered "DONE" does nothing and is not kept; messages are neither lost nor repeated.
- Contract net, blackboard, swarm and demonstration agents, REST, websockets, user interface, starter: relays or wrappers without state worth an invariant.
