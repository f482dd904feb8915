# A verified model of oxilite-core's derived state

oxilite keeps an RDF store in SQLite tables. Several of those tables are *derived*: the schema
closure `tbox_closure`, the SHACL index `shapes_index`, the inferences `quads_inf` with their
producers, and the vector tables. Most writes do not rebuild them, so each skipped rebuild rests
on an argument; queries are rewritten over them, so each answer rests on another. This project
models that code in Dafny and proves those arguments.

`dafny verify dfyconfig.toml` checks everything. The modules need nothing outside this directory.

## How the code is modelled

* A table is a finite set of rows (a `map` where its primary key matters). Ids are symbolic in the
  modules about relations (`Ids`): the constructor is the tag, the fields the payload, because a
  hash collision aborts the insert that would cause it. `Encoding` and the modules above it model
  ids and rows as integers and strings instead, with their encoding and decoding.
* A SQL statement is its relational meaning (`Database.Apply`). A request is a list of statements
  run all-or-nothing (`Database.Run`, `Database.Connection.Request`).
* `WITH RECURSIVE … UNION` is a least fixpoint (`Fixpoint`), also as SQLite's queue.
* WHERE evaluation is an arbitrary function from the store to a set of solutions.
* The step machines (`TermResolver`, `QueryJob` for DESCRIBE, the materialization job, a
  connection, `EncodedRows`) are classes with the same fields; loops over growing vectors and maps
  (`plan_update_with`, `entries_from_rows`, `problems`, `sync_statements`, `union_all`) are methods
  with loops, each proved against a function or predicate that the lemmas are about.

| module | models |
|---|---|
| `Fixpoint`, `Walks` | recursive queries; the closure composed with a direction bit, against axiom walks |
| `Ids`, `Registry`, `Scopes` | vocabulary; the registry graph as SQL reads it; which axioms hold in which graph |
| `Registrations`, `Governing` | the same said on registration and import triples |
| `Closure`, `Shapes`, `ShapeMeaning` | the nine closure statements; the shape index, and what its rows say of the shapes |
| `Entailments`, `PushDown`, `PushDownLimits` | the rewritten source of a triple pattern, and its constants |
| `Chaining`, `Rewriting`, `RewritingLimits` | forward chaining by the one-step rules, and exactly when rewriting equals it |
| `SchemaPatterns`, `Merging`, `Answers` | subclass and sub-property patterns; patterns over merged graphs; what a query sees after any run of jobs |
| `OwlRules`, `Rounds`, `Materialization`, `RoundBound`, `MaterializeJobs`, `Provenance` | OWL 2 RL rounds (section 4.3 of OWL 2 Profiles), the job that runs them, producers of inferences |
| `OwlLists`, `OwlClosure` | what a materialized store holds: each rule's closure condition on triples, lists and chains as paths |
| `OwlSemantics`, `OwlSoundness`, `OwlSoundnessLimits` | that what is inferred holds in every model (OWL 2 RDF-Based Semantics, section 5), and where it need not |
| `LeastClosed`, `LeastClosedLimits` | when the rounds end in the least closed set of inferences, and a store where they do not |
| `Database`, `Updates`, `Jobs`, `UpdateMeaning`, `JobMeaning` | statements and requests; SPARQL updates (section 3.1.3 of SPARQL 1.1 Update); the write jobs and every run of them; what each does to every table, row by row |
| `Encoding`, `Dictionaries`, `Resolver`, `RoundTrips`, `StoredTerms` | ids and rows of terms, storing them, resolving them again |
| `Describe`, `DescribeMeaning` | DESCRIBE over cyclic blank nodes, and on stored quads |
| `RegistryReader`, `RegistryUpdates`, `RegistryMeaning` | the client-side reader and validator; the registry updates as changes of a map; what is wrong with a registration |
| `Vectors` | vector tables, triggers, fingerprints, synchronisation |
| `CompoundSelect`, `Calendar`, `SortKeys` | nesting of compound SELECTs, day counts, sort keys |

## Main results

* **Caches are never stale.** From an empty store, after any run of insert, remove, graph, clear,
  update and inference jobs, with terms coming and going, the closure and the shape index are what
  a rebuild would make them, although most writes rebuild nothing
  (`Jobs.ReachableStoresAreCoherent`). What the two then say is stated on the triples themselves
  (`Answers.CachesMean`), and what each job does to each table row by row (`JobMeaning.JobsDo`).
* **Answers are forward chaining.** In any such store a pattern with any property outside the
  schema vocabulary, transitive ones and `rdf:type` included, and any constants matches exactly
  what the one-step RDFS/OWL rules derive in its graph from the axioms that apply there now
  (`Answers.AnswersAreForwardChaining`, `Answers.TransitiveAnswers`), as long as those axioms
  build nothing on the types they give, as ordinary ontologies do not
  (`Answers.OrdinaryOntologiesAnswer`); for any other axioms some data makes the two differ
  (`RewritingLimits.RewritingAgreesExactly`). Over merged graphs the answer is what each graph
  derives, put together, and closed transitively if the default graph's ontologies say so
  (`Answers.MergedAnswers`); subclass and sub-property patterns have the closure's own rows besides
  (`Answers.SchemaAnswers`). The axioms are those of the graphs that chains of import triples lead
  to (`Answers.AnswersFollowTriples`). This rests on exact scope selection
  (`Scopes.SelectionIsExact`), closure rows being axiom walks with their parity
  (`Closure.RowsAreEntailments`, `Walks.ComposeFindsWalks`), rewriting
  (`Rewriting.RewritingIsForwardChaining`) and constant push-down (`PushDown.ConstantsPushDown`).
* **An update means its operations**, evaluated then applied, in order, or nothing at all
  (`Updates.PlanMeansOperations`).
* **Materialization** ends within a cubic number of rounds in a store whose triples meet the closure
  condition of every rule (`OwlClosure.OwlHolds`), with only rows that had a derivation when they
  were added. All of them hold in every model of what was there, as long as the lists that
  intersections, unions and chains name are lists (`OwlSoundness.RoundsAreSound`). The result is the least closed one,
  whatever the order of the rules, for any rules but the two that read whole RDF lists; and for
  all of them when the intersections and chains at the end are those of the start, which is certain
  in a store without any, and in one that states no equality or functional property, says nothing
  of the list vocabulary and has no list that runs in a circle (`LeastClosed.RoundsReachLeastClosedSet`,
  `MaterializeJobs.Materialize`).
* **Terms round-trip**: what is encoded and stored is what resolution returns, in at most one round
  more than triple terms are nested (`StoredTerms.RoundTrip`); DESCRIBE collects exactly the
  triples of the subjects reachable through blank nodes, asking for each subject once.
* **The registry graph is a map**: any run of registry updates keeps it the map they describe, and
  the reader gives that map back (`RegistryUpdates.CommandsReadBack`); reader and SQL agree on
  validated registries (`RegistryReader.ReaderAgreesOnTargets`).
* **Vector tables** hold exactly the keys of their property's quads in every committed state, and
  a second synchronisation is empty.

## Where the code differs from what is said about it

The model follows the code.

* crates/oxilite-core/src/reason.rs:851-852 and crates/oxilite-core/src/ops.rs:764 say that a reset
  keeps what other producers also derived. A quad is attributed only to whoever wrote it first
  (reason.rs:870-876), so resetting that producer removes it: `Provenance.SharedQuadIsLost` is the
  example, and `Provenance.ResetKeepsOthers` says exactly what survives: the quads other producers
  *own*.
* Constants cannot always be pushed into an `rdf:type` pattern: a closure row with `rdf:type` as a
  super-property is used by the unbound source and not by the bound one.
  `PushDownLimits.TypePushDownExactly` gives the exact condition.
* Rewriting equals forward chaining, over every base and pattern, if and only if the axioms build
  nothing on types they give themselves: no property leads to `rdf:type`, nor it to itself with
  the ends swapped; if it leads to a property, or has a range, no domain, range or class axiom
  gives a type to build on; and its domains are among the types of every property that gives any
  (`RewritingLimits.RewritingAgreesExactly`). A super-property of `rdf:type` is the example
  (`RewritingLimits.SuperPropertyOfTypeIsMissed`).
* Two materialization rules read whole RDF lists. When a rule adds to a list after one of the two
  has read it, what is inferred can depend on how often a rule runs in a round, and can be more
  than a closed set has to hold: `LeastClosedLimits.RepetitionCanMatter` and
  `LeastClosedLimits.LeastCanBeMissed` have a store where `rdf:first` is two sub-property steps
  away.
* `prp-spo2` keeps the steps of a chain under the property, not under its list. With two chain
  axioms for a property it mixes their steps and concludes what neither gives:
  `OwlSoundnessLimits.ChainsAreMixed` has a store, and a model of it in which the conclusion fails.
  `cls-int1` trusts a list that does not end: `OwlSoundnessLimits.PartialListsMislead`.
* The merge of some graphs does not derive what each of them does: whether a property is closed
  transitively is asked of the default graph's scope alone. A property that only a merged graph's
  ontology declares is closed nowhere (`Merging.MergeLosesTransitivity`), and one that the default
  graph's ontology declares is closed across graphs. `Merging.MergeIsUnionExactly` says when the
  merge is the union after all.
* A registration reads back as itself unless its graph or a target is named `oxl:DefaultGraph`, or
  a target `oxl:AllGraphs`: `RegistryUpdates.EntryReadsBackExactly`.
* A literal sorts by lexical form against every clean one, whatever its datatype IRI, if and only
  if it has no character up to U+0001, or the first is U+0001 and what follows it comes after every
  IRI scheme: `SortKeys.TextsSortExactly`.

## Model

| member | source | states |
|---|---|---|
| Fixpoint.LeastIsClosed | crates/oxilite-core/src/reason.rs:227-233 | a recursive query's result has the seed, is closed under the step and stays within its frame |
| Fixpoint.LeastIsLeast | crates/oxilite-core/src/reason.rs:227-233 | every closed superset of the seed contains the result |
| Fixpoint.WithRecursive | crates/oxilite-core/src/reason.rs:227-233 | evaluation with a queue, one row at a time, gives that least result and ends |
| Walks.ComposeFindsWalks | crates/oxilite-core/src/reason.rs:234-243 | the recursion modulo 2 has a row (k, a, b, d) if and only if the edges of scope k have a walk from a to b with that parity of inverse edges |
| Closure.StepsRebuild | crates/oxilite-core/src/reason.rs:277-299 | the nine statements, whose later ones read rows of earlier ones, leave the same table whatever was in it before |
| Closure.RowsAreEntailments | crates/oxilite-core/src/reason.rs:208-299 | a row of any kind is in the closure of a scope if and only if walks over that scope's axioms entail it; OWL rows follow the parity of inverse steps, trivial ones dropped |
| Registry.AxiomsReadSchemaPart | crates/oxilite-core/src/registry.rs:615-677 | the scoped axioms depend on schema triples and registration triples only |
| Scopes.ScopeMapByScope | crates/oxilite-core/src/registry.rs:665-671 | one recursion over (graph, scope) pairs follows imports for every scope separately, through cycles |
| Scopes.ScopeHoldsApplicableAxioms | crates/oxilite-core/src/registry.rs:615-677 | the axioms under a graph's own scope are those of the active ontologies that apply to it, imports included |
| Scopes.AllGraphsAxiomsEverywhere | crates/oxilite-core/src/registry.rs:630-642 | what applies to every graph is among the axioms of every specific scope |
| Scopes.SelectionIsExact | crates/oxilite-core/src/reason.rs:352-363 | the closure rows picked for a graph are exactly the closure of the axioms that apply to it, even when its scope has no row and is missing from the loaded list |
| Governing.EdgesOnTriples | crates/oxilite-core/src/registry.rs:645-671 | an import edge leads from a graph to the graph of an active ontology that an import triple, in the registry or in the importing ontology, names |
| Governing.ApplicableOnTriples | crates/oxilite-core/src/registry.rs:615-677 | the recursion finds exactly the graphs that chains of such imports lead to from the active ontologies for a graph |
| Governing.AxiomsAmongGoverning | crates/oxilite-core/src/registry.rs:615-677 | the axioms that apply to a graph are the axioms among the triples of those graphs, or of all data graphs while nothing is registered |
| Governing.ReadersAlike | crates/oxilite-core/src/reason.rs:234-299 | and they are all that the closure's walks and the chaining rules read of those triples |
| Governing.ScopeFollowsImports | crates/oxilite-core/src/registry.rs:615-677 | the axioms under a graph's own scope are those of the graphs that chains of import triples lead to |
| Governing.SelectionFollowsImports | crates/oxilite-core/src/reason.rs:352-363 | the closure rows picked for a graph are what the triples of those graphs entail |
| PushDown.ForwardWalk | crates/oxilite-core/src/reason.rs:565-570 | the recursion from a bound subject finds exactly the pairs of the full transitive closure that start there |
| PushDown.BackwardWalk | crates/oxilite-core/src/reason.rs:571-574 | the recursion from a bound object finds exactly the pairs that end there |
| PushDown.RecursionPushDown | crates/oxilite-core/src/reason.rs:551-584 | the recursive part under any constants is the unbound one, filtered |
| PushDown.ConstantsPushDown | crates/oxilite-core/src/reason.rs:408-644 | the source of a pattern with constants is the fully unbound source filtered by them, across all arms, with quiet types for `rdf:type` patterns |
| PushDownLimits.NoisyTypesBreakPushDown | crates/oxilite-core/src/reason.rs:585-638 | whenever types are not quiet some store and pattern tell the two apart |
| PushDownLimits.TypePushDownExactly | crates/oxilite-core/src/reason.rs:585-638 | push-down of `rdf:type` patterns holds on every store if and only if no selectable closure row entails or closes `rdf:type` |
| Rewriting.RewritingIsSound | crates/oxilite-core/src/reason.rs:459-549 | rewriting yields nothing that forward chaining does not derive |
| Rewriting.RewritingIsComplete | crates/oxilite-core/src/reason.rs:459-549 | nor does it miss an answer with a valid subject, when the axioms build nothing on the types they give |
| Rewriting.RewritingIsForwardChaining | crates/oxilite-core/src/reason.rs:408-584 | over a store and under that condition, the source of any property is, graph by graph, the fixpoint of the sub-property, equivalence, inverse, symmetry, domain, range and subclass rules with that graph's axioms, closed transitively where they say so |
| Rewriting.TransitiveRewriting | crates/oxilite-core/src/reason.rs:551-584 | a property that the axioms applying to a graph declare transitive answers there with the transitive closure of its derived triples, and elsewhere with those triples |
| RewritingLimits.RewritingAgreesExactly | crates/oxilite-core/src/reason.rs:408-584 | source and answers agree on every base and pattern if and only if the closure rows of the graph's scope build nothing on types they give |
| RewritingLimits.StayingPutIsOnRows | crates/oxilite-core/src/reason.rs:208-299 | that condition on the axioms is the one read off the closure rows |
| RewritingLimits.EnteringTypeBreaks | crates/oxilite-core/src/reason.rs:459-506 | a property, or a swap, leading to `rdf:type` has a base of one triple where the two differ |
| RewritingLimits.LeavingTypeBreaks | crates/oxilite-core/src/reason.rs:507-549 | so has a property that `rdf:type` leads to, when some axiom gives types |
| RewritingLimits.TypingClassesBreaks | crates/oxilite-core/src/reason.rs:459-506 | so has a range of `rdf:type` |
| RewritingLimits.UncoveredDomainBreaks | crates/oxilite-core/src/reason.rs:459-506 | so has a domain of `rdf:type` that a typing property does not give as well |
| RewritingLimits.SuperPropertyOfTypeIsMissed | crates/oxilite-core/src/reason.rs:459-549 | a concrete store, read through its recomputed closure, where forward chaining derives a triple that rewriting misses |
| Answers.AnswersAreForwardChaining | crates/oxilite-core/src/reason.rs:333-644 | the same with any constants, in every store any run of jobs leads to, caches as those jobs left them |
| Answers.AnswersFollowTriples | crates/oxilite-core/src/reason.rs:333-644 | the same against the triples of the graphs that chains of import triples lead to, the registry's SQL left out of the statement |
| Answers.TransitiveAnswers | crates/oxilite-core/src/reason.rs:551-584 | there too a property is closed transitively in exactly the graphs whose ontologies declare it so |
| SchemaPatterns.SchemaArmRow | crates/oxilite-core/src/reason.rs:524-536 | the closure's own arm of a subclass or sub-property pattern has (s, o) in the default graph if and only if the axioms of some graph lead from s to o, in that direction |
| Answers.SchemaAnswers | crates/oxilite-core/src/reason.rs:524-584 | after any jobs such a pattern, under any constants, answers in each graph with what forward chaining gives there and in the default graph also with those pairs, closed transitively where declared |
| Answers.MergedSchemaAnswers | crates/oxilite-core/src/reason.rs:416-584 | and over merged graphs with what each of them gives and those pairs |
| Answers.OrdinaryOntologiesAnswer | crates/oxilite-core/src/reason.rs:333-644 | the condition on the axioms holds for ontologies that are silent about `rdf:type`, and for those that give no types and lead nothing to it |
| Chaining.UnconstrainedTypesStayPut | crates/oxilite-core/src/reason.rs:459-549 | without property axioms about `rdf:type` nothing is built on given types |
| Chaining.UnfedTypesStayPut | crates/oxilite-core/src/reason.rs:459-549 | nor without domains, ranges and class axioms, whatever `rdf:type` leads to |
| Answers.MergedAnswers | crates/oxilite-core/src/reason.rs:333-644 | after any jobs a pattern over merged graphs answers with what each derives from its own axioms, closed across them if the default graph's ontologies declare the property transitive |
| Merging.MergeIsUnion | crates/oxilite-core/src/reason.rs:416-426 | merging graphs gives the union of what each derives under its own scope, for `rdf:type` and every property not closed transitively |
| Merging.MergeFollowsDefaultGraph | crates/oxilite-core/src/reason.rs:540-584 | for any other property, under any constants: a walk over the union of the merged graphs' arms if the default graph's scope declares it transitive, else that union; schema patterns have the closure rows besides |
| Merging.MergeIsUnionExactly | crates/oxilite-core/src/reason.rs:540-584 | over every base the merge is the union if and only if neither the default graph nor a merged one declares the property transitive, or all do and there is one graph at most |
| Merging.OneGraphIsUneven | crates/oxilite-core/src/reason.rs:540-584 | two steps in one graph show it where that graph and the default graph disagree |
| Merging.TwoGraphsAreUneven | crates/oxilite-core/src/reason.rs:540-584 | a step in each of two graphs shows it where the default graph closes the property |
| Merging.MergeLosesTransitivity | crates/oxilite-core/src/reason.rs:540-584 | a concrete store, an ontology targeting one graph, where the merge of all graphs misses what that graph answers |
| Shapes.IndexReadsShapePart | crates/oxilite-core/src/shapes.rs:99-163 | the shape index depends on SHACL constraint triples and registrations only |
| ShapeMeaning.GraphsOfShapes | crates/oxilite-core/src/registry.rs:554-576 | which graphs may hold shapes, on registration triples |
| ShapeMeaning.RebuiltIndexMeans | crates/oxilite-core/src/shapes.rs:99-163 | the index has one row for each target and path that a shape declares; its counts and texts are the greatest its shapes carry, absent if they carry none, and its flag tells of sh:class and sh:node |
| Answers.CachesMean | crates/oxilite-core/src/reason.rs:352-363 | after any jobs the closure's rows and the index say this of the triples there now |
| OwlRules.RulesAreMonotone | crates/oxilite-core/src/reason.rs:659-755 | every rule but `cls-int1` and `prp-spo2` only gains conclusions when triples are added |
| Materialization.StopsAtClosedStore | crates/oxilite-core/src/reason.rs:756-773 | when a round changes nothing every conclusion of every rule with a valid subject is asserted in the default graph or inferred |
| OwlLists.CellsFindMembers | crates/oxilite-core/src/reason.rs:651-658 | the list recursion finds exactly the items on rdf:rest paths |
| OwlLists.StepsAreSteps | crates/oxilite-core/src/reason.rs:745-749 | the place recursion finds exactly the i-th properties of each chain |
| OwlClosure.RuleRuns | crates/oxilite-core/src/reason.rs:659-755 | no rule is missing from the round |
| OwlClosure.AtRestOwlHolds | crates/oxilite-core/src/reason.rs:659-755 | a store at rest is closed under the one-step rules of forward chaining and under the equality, functional, transitive, schema, restriction, intersection, union and chain conditions, each said on triples |
| OwlSemantics.EqualityIsSound | crates/oxilite-core/src/reason.rs:660-666 | the equality rules conclude what holds wherever their premises do |
| OwlSemantics.PropertiesAreSound | crates/oxilite-core/src/reason.rs:667-693 | so do the property rules |
| OwlSemantics.ClassAxiomsAreSound | crates/oxilite-core/src/reason.rs:694-704 | the class and schema rules |
| OwlSemantics.RestrictionsAreSound | crates/oxilite-core/src/reason.rs:705-731 | and the restriction rules |
| OwlSoundness.RulesAreSound | crates/oxilite-core/src/reason.rs:659-755 | every rule concludes only what holds in every model of its premises, the ones that read lists where the lists are lists |
| OwlSoundness.RoundsAreSound | crates/oxilite-core/src/reason.rs:649-773 | so does any number of rounds, if lists stay proper |
| OwlSoundness.UntouchedListsStayProper | crates/oxilite-core/src/reason.rs:732-752 | which proper lists do when no list triple is inferred |
| OwlSoundnessLimits.ChainsAreMixed | crates/oxilite-core/src/reason.rs:745-752 | a property with two chains, a conclusion from half of each, and a model where it fails |
| OwlSoundnessLimits.PartialListsMislead | crates/oxilite-core/src/reason.rs:732-737 | an intersection whose list has more to it than is stored, a conclusion from the first item, and a model where it fails |
| Materialization.RoundRowsAreDerived | crates/oxilite-core/src/reason.rs:756-773 | every row that any number of rounds adds was concluded, in one of them, by a rule from what the rules before it had left, which did not have the row |
| LeastClosed.KeptListsKeepConclusions | crates/oxilite-core/src/reason.rs:659-755 | all rules, the two that read whole lists included, only gain conclusions when triples are added that lengthen no list |
| LeastClosed.PlainConclusions | crates/oxilite-core/src/reason.rs:659-755 | without equalities, and with nothing said of the list vocabulary, no rule writes a list or an equality |
| LeastClosed.SafeListsStay | crates/oxilite-core/src/reason.rs:659-773 | so the intersections and chains of such a store, or of one without any, are the same after any number of rounds |
| LeastClosed.RestingRoundsAreLeast | crates/oxilite-core/src/reason.rs:649-773 | rounds that come to rest with the lists they started from are in the least closed set of inferences; rounds of rules that read no whole list always are |
| LeastClosed.RoundsReachLeastClosedSet | crates/oxilite-core/src/reason.rs:649-773 | the rounds end in the least closed set: for monotone rules in every store, for all rules on a condition read off the store before the first round |
| LeastClosed.LeastWithoutLists | crates/oxilite-core/src/reason.rs:649-773 | without `owl:intersectionOf` and `owl:propertyChainAxiom` it is the least of all closed sets |
| LeastClosed.RuleOrderDoesNotMatter | crates/oxilite-core/src/reason.rs:649-773 | under the same alternatives any list of the same rules, in any order, repeated or not, ends in the same inferences |
| LeastClosedLimits.RepetitionCanMatter | crates/oxilite-core/src/reason.rs:659-755 | in a store where a rule writes a list, running `prp-spo1` twice in a round infers less, after any number of rounds |
| LeastClosedLimits.LeastCanBeMissed | crates/oxilite-core/src/reason.rs:659-755 | and the rounds as they are infer a row that is not in some closed set |
| RoundBound.ConclusionsWithin | crates/oxilite-core/src/reason.rs:659-755 | no rule invents an id beyond its premises and the rule vocabulary |
| RoundBound.RoundUsesRoom | crates/oxilite-core/src/ops.rs:734-743 | a round that changes something strictly uses up the triples still possible |
| RoundBound.RoomIsCubic | crates/oxilite-core/src/ops.rs:734-743 | there are at most n cubed of those for n ids |
| MaterializeJobs.RulesReport | crates/oxilite-core/src/ops.rs:734 | the counts a round's statements report add up to the rows it added, so zero means nothing changed |
| MaterializeJobs.MaterializeJob.Step | crates/oxilite-core/src/ops.rs:723-744 | the job's state machine: reset, rounds until one reports no change or the cap is met, then the count |
| MaterializeJobs.Materialize | crates/oxilite-core/src/ops.rs:714-751 | driven to its end on a connection the job stops after a saturated round or at the cap, within n cubed plus one rounds, and returns the number of inferences; every row it adds was derived, and after a saturated round the store meets every rule's condition on triples and is the least closed one if its lists are those of the start |
| Provenance.ResetKeepsOthers | crates/oxilite-core/src/reason.rs:853-867 | a reset leaves exactly the quads other producers own, with their rows, and nothing of its producer |
| Provenance.ReplaceGivesWhatOthersLack | crates/oxilite-core/src/reason.rs:881-900 | replacing gives the producer exactly the new quads nobody else owns, leaves the others' rows untouched, and every inferred quad has one producer |
| Provenance.LastReplaceWins | crates/oxilite-core/src/reason.rs:881-900 | two replaces of a producer leave what the last alone would; a repeated one changes nothing |
| Provenance.SharedQuadIsLost | crates/oxilite-core/src/reason.rs:851-876 | a quad two producers derived does not survive the reset of the one that claimed it first |
| Database.Connection.Request | crates/oxilite-core/src/sql.rs:165-200 | a request applies all its statements in order or restores the tables, and reports each statement's changes |
| Updates.PlanUpdate | crates/oxilite-core/src/update.rs:384-472 | the plan is the operations' statements in order, then the refreshes the update may need; it fails only for a LOAD that is not silent |
| Updates.ClearMeans | crates/oxilite-core/src/update.rs:100-145 | CLEAR and DROP leave exactly the quads and names outside their target, or abort for an unknown graph |
| Updates.DeleteInsertMeans | crates/oxilite-core/src/update.rs:297-376 | the compiled DELETE/INSERT removes and adds what its templates give over the solutions of the state before, and empties the buffer |
| Updates.ClosureRefreshes | crates/oxilite-core/src/reason.rs:277-299 | run inside a request the closure statements leave the closure of the current quads |
| Updates.PlanMeansOperations | crates/oxilite-core/src/update.rs:384-472 | a planned update equals its operations run one after the other, each over the state before it, then the refreshes; if a guard fires nothing has changed |
| UpdateMeaning.MadeIsDeleted | crates/oxilite-core/src/update.rs:297-376 | a quad is deleted or inserted if and only if a template makes it under a solution, slot by slot, and, to be inserted, it can be stored |
| UpdateMeaning.OperationDoes | crates/oxilite-core/src/update.rs:100-376 | which quads and graph names each operation keeps and adds, and when it fails |
| UpdateMeaning.MeaningDoes | crates/oxilite-core/src/update.rs:384-472 | an update takes these effects one after the other, or some operation fails |
| Jobs.SchemaRefreshFor | crates/oxilite-core/src/ops.rs:255-277 | the loop, with its early exit, asks for exactly the refreshes some quad calls for |
| Jobs.ClosureSkipsSafely | crates/oxilite-core/src/reason.rs:153-158 | a write without schema quads leaves a current closure current |
| Jobs.ShapesSkipSafely | crates/oxilite-core/src/shapes.rs:48-56 | likewise for the shape index, also if the write stores or deletes terms that no shape mentions |
| Jobs.TermsKeepCoherence | crates/oxilite-core/src/shapes.rs:99-163 | storing or deleting terms that no shape mentions leaves the caches current |
| Jobs.UntouchedUpdate | crates/oxilite-core/src/reason.rs:161-197 | an update the detectors let pass changes nothing the closure reads, whatever its WHERE clauses return |
| Jobs.JobsKeepCoherence | crates/oxilite-core/src/ops.rs:255-323 | every job keeps the caches equal to a rebuild, graphs listed, the buffer empty and one producer per inference |
| Jobs.ReachableStoresAreCoherent | crates/oxilite-core/src/ops.rs:643-697 | so does any run of jobs, terms coming into the dictionary and going out of it in between |
| Jobs.ClearingFreesAllTerms | crates/oxilite-core/src/ops.rs:680-697 | after everything is cleared any change to the dictionary's terms is part of such a run |
| Jobs.EmptyStoreIsCoherent | crates/oxilite-core/src/ops.rs:680-697 | an empty store is a place to start from |
| JobMeaning.JobsDo | crates/oxilite-core/src/ops.rs:255-323 | what every job does to quads, graph names, inferences, attributions and producers, row by row, and what it leaves alone |
| JobMeaning.InsertDoes | crates/oxilite-core/src/ops.rs:284-306 | inserting adds the quads given and lists their named graphs |
| JobMeaning.RemoveDoes | crates/oxilite-core/src/ops.rs:310-324 | removing takes away the quads given and nothing else |
| JobMeaning.GraphsOfQuadsAreListed | crates/oxilite-core/src/ops.rs:643-697 | in a coherent store the graph of every quad outside the default graph is listed |
| Encoding.MakeSplits | crates/oxilite-core/src/encoding.rs:115-122 | tag and payload come back out of an id and its sign bit stays clear |
| Encoding.InlineIntegersSort | crates/oxilite-core/src/encoding.rs:136-141 | ids of inline integers are in numeric order |
| Encoding.ParsePrints | crates/oxilite-core/src/encoding.rs:438-446 | printing a 64-bit integer and parsing it are inverse |
| Encoding.PlainTermsDecode | crates/oxilite-core/src/encoding.rs:623-672 | a plain term decodes from its row, or from its id alone when it has none, never both |
| Encoding.LiteralKeysAreInjective | crates/oxilite-core/src/encoding.rs:124-134 | different literals of a kind have different hash keys |
| Dictionaries.EncodedRows.Term | crates/oxilite-core/src/encoding.rs:516-598 | encoding returns the term's id and appends the rows of all its parts, at any depth |
| Dictionaries.EncodedRows.Dedup | crates/oxilite-core/src/encoding.rs:614-620 | ids come out strictly ascending, every id recorded keeps one of its rows, and no row is new |
| Dictionaries.DedupLosesNothing | crates/oxilite-core/src/encoding.rs:614-620 | deduplication by id keeps every row when an id has one row |
| Dictionaries.StoredTermsAreHeld | crates/oxilite-core/src/schema.rs:133-139 | a committed write holds every written term with all its parts and loses none held before |
| Resolver.TermResolver.WantId | crates/oxilite-core/src/resolve.rs:41-51 | an id becomes pending unless it is the default graph, known, waiting or inline |
| Resolver.TermResolver.Chunks | crates/oxilite-core/src/resolve.rs:72-90 | lookups of at most 400 ids ask for each id of the right table and no other |
| Resolver.TermResolver.Request | crates/oxilite-core/src/resolve.rs:62-92 | everything pending is asked for, triple terms and others apart, and nothing stays pending |
| Resolver.TermResolver.Assemble | crates/oxilite-core/src/resolve.rs:130-152 | no waiting triple term with known parts is left, no id is lost, and what is made is right |
| Resolver.TermResolver.Absorb | crates/oxilite-core/src/resolve.rs:95-128 | rows are absorbed in order, each under its lookup's kind, up to a corruption error |
| RoundTrips.RoundAdvances | crates/oxilite-core/src/resolve.rs:62-128 | a round answers all that was in flight and leaves only ids one level shallower to ask for |
| RoundTrips.NothingWaits | crates/oxilite-core/src/resolve.rs:130-152 | with nothing pending or in flight a waiting triple term would mean one that is ready |
| RoundTrips.Resolve | crates/oxilite-core/src/resolve.rs:155-166 | wanting any ids and looping ends within depth plus one rounds, after which each wanted id gives its term |
| StoredTerms.RefusedIffClash | crates/oxilite-core/src/schema.rs:133-137 | storing is refused exactly when a stored row has the same id and other columns |
| StoredTerms.RoundTrip | crates/oxilite-core/src/encoding.rs:516-598 | encode, deduplicate, store and resolve give back every term of every list, or the store refused a clash |
| Describe.DescribeJob.Request | crates/oxilite-core/src/query.rs:367-404 | each describable id not asked for before is requested once, in chunks, and marked done |
| Describe.DescribeJob.Absorb | crates/oxilite-core/src/query.rs:552-567 | rows are collected in order and their blank-node objects come next |
| Describe.Collect | crates/oxilite-core/src/query.rs:552-577 | the rounds end on any graph, ask for each described subject once and for nothing else, and collect each fact of a described subject once |
| Describe.Finish | crates/oxilite-core/src/query.rs:431-451 | the facts become triples, each triple once, those that cannot be triples skipped |
| Describe.Describe | crates/oxilite-core/src/query.rs:455-480 | the answer is exactly the triples of the subjects reachable from the seeds through blank-node objects, each once |
| DescribeMeaning.DescribedOnQuads | crates/oxilite-core/src/query.rs:367-404 | those are the quads of the default graph, or of all, whose subject a chain of blank-node objects reaches from a seed that is an IRI or a blank node, tags read off the ids |
| RegistryReader.ReadAll | crates/oxilite-core/src/registry.rs:368-394 | the loop over a node's properties computes the registration they spell, "all graphs" overriding targets |
| RegistryReader.EntriesFromRows | crates/oxilite-core/src/registry.rs:337-399 | grouping the rows gives one entry for each role of each node and no other |
| RegistryReader.ReadPropsDenote | crates/oxilite-core/src/registry.rs:368-394 | what is read of a node, whatever the order of its rows |
| RegistryReader.ValueProblems | crates/oxilite-core/src/registry.rs:818-876 | the problems reported for a property are exactly its violations |
| RegistryReader.Problems | crates/oxilite-core/src/registry.rs:776-879 | every violation of every node is reported and nothing else |
| RegistryMeaning.ViolationsAreWrong | crates/oxilite-core/src/registry.rs:818-876 | a violation is a single property with two values, a name that is no IRI, a literal of the wrong type, a flag that is no boolean or a digest that is not 64 lower-case hexadecimal digits |
| RegistryReader.ReaderFindsActiveGraphs | crates/oxilite-core/src/registry.rs:526-541 | without problems the reader's active graphs of a role are those of the SQL fragment |
| RegistryReader.ReaderAgreesOnTargets | crates/oxilite-core/src/registry.rs:168-171 | without problems an active ontology applies to a graph exactly when `reg_direct` gives its graph that graph's scope |
| RegistryUpdates.PropsAreFacts | crates/oxilite-core/src/registry.rs:938-973 | the triples written for an entry are exactly the facts it records |
| RegistryUpdates.DescriptionIsDeleted | crates/oxilite-core/src/registry.rs:200-205 | the DELETE WHERE removes exactly the node's triples of the registry graph |
| RegistryUpdates.ValuesAreReplaced | crates/oxilite-core/src/registry.rs:268-296 | the DELETE/INSERT with OPTIONAL replaces a property's values on a registered node, had it any or not, and does nothing to another node |
| RegistryUpdates.RegisterMeans | crates/oxilite-core/src/registry.rs:228-263 | registering replaces the node's whole description |
| RegistryUpdates.CommandRefinesMap | crates/oxilite-core/src/registry.rs:228-296 | each registry update does to the graph what it does to a map from node to registration, and touches no other graph |
| RegistryUpdates.CommandsRefineMap | crates/oxilite-core/src/registry.rs:228-296 | so does any run of them |
| RegistryUpdates.RegistrationsReadBack | crates/oxilite-core/src/registry.rs:337-399 | the reader's entries are exactly the registrations of the map |
| RegistryUpdates.CommandsReadBack | crates/oxilite-core/src/registry.rs:177-194 | after any run of updates with plain targets the reader returns the map they describe |
| RegistryUpdates.EntryReadsBackExactly | crates/oxilite-core/src/registry.rs:938-973 | an entry's triples read back as that entry if and only if no graph is named by the two reserved IRIs |
| RegistryMeaning.CommandsLeaveNoProblems | crates/oxilite-core/src/registry.rs:228-296 | after any run of updates whose IRIs are IRIs and digests digests, the validator finds nothing wrong with any registration |
| RegistryMeaning.GivenTimeIsKept | crates/oxilite-core/src/registry.rs:228-263 | registering keeps a loading time that is given and records the current one otherwise |
| Vectors.FingerprintsDiffer | crates/oxilite-core/src/vector.rs:303-312 | equal fingerprints mean equal definitions, names aside |
| Vectors.WritesKeepTables | crates/oxilite-core/src/vector.rs:382-392 | every write of terms or quads keeps every vector table equal to its property's quads |
| Vectors.WritesFailForMisfits | crates/oxilite-core/src/vector.rs:382-388 | a write is refused exactly for a new value of the wrong dimensions or one the conversion cannot read |
| Vectors.CreatePerforms | crates/oxilite-core/src/vector.rs:361-418 | creation builds table, triggers, rows and fingerprint from the quads, or fails for a value that does not fit |
| Vectors.DropPerforms | crates/oxilite-core/src/vector.rs:446-459 | dropping forgets the table, its triggers and its fingerprint, and nothing else |
| Vectors.Definitions | crates/oxilite-core/src/vector.rs:631-659 | definitions with clashing names are reported and the rest have distinct tables |
| Vectors.SyncStatements | crates/oxilite-core/src/vector.rs:747-768 | orphans are dropped, stale tables dropped and created, missing ones created; it fails only for a table that cannot be built |
| Vectors.SyncBuildsDefinitions | crates/oxilite-core/src/vector.rs:747-768 | afterwards exactly the defined tables exist, all current and built from their definitions, or a value did not fit |
| Vectors.SecondSyncIsEmpty | crates/oxilite-core/src/vector.rs:745-768 | a second synchronisation has no statements |
| Vectors.BuiltMeansBuilt | crates/oxilite-core/src/vector.rs:740-743 | a fingerprint match means the table and triggers are those of this very definition |
| Vectors.ClearingEmptiesTables | crates/oxilite-core/src/ops.rs:680-697 | deleting all quads, then all terms, is such a write and leaves every table empty |
| Vectors.CommittedTablesAgree | crates/oxilite-core/src/vector.rs:361-418 | every committed state of any run of writes, clearing included, and synchronisations has every table with exactly the (s, o, g) of its property's quads, of the declared dimensions |
| Vectors.TablesAgreeFromTheStart | crates/oxilite-core/src/vector.rs:361-418 | in particular in any run that starts from any quads and no vector table |
| Vectors.TablesHoldVectors | crates/oxilite-core/src/vector.rs:361-418 | a table of a current store has, for a definition of its name, one row of its element type for each quad of its property, all of its dimensions |
| CompoundSelect.Group | crates/oxilite-core/src/sql.rs:346-357 | one pass makes ceil(n / k) terms with the same SELECTs in order, one level deeper at most |
| CompoundSelect.UnionAll | crates/oxilite-core/src/sql.rs:344-359 | the loop ends, no compound has more than max(limit, 2) terms, flattening gives back the SELECTs in order, and the nesting is logarithmic |
| Calendar.EpochIsZero | crates/oxilite-core/src/encoding.rs:252-261 | 1970-01-01 is day 0 |
| Calendar.SuccessorIsOneMore | crates/oxilite-core/src/encoding.rs:252-261 | the day after any valid date, negative and century years included, counts one more |
| Calendar.OrderIsKept | crates/oxilite-core/src/encoding.rs:252-261 | counts order dates as the calendar does and tell them apart |
| Calendar.EveryDayHasADate | crates/oxilite-core/src/encoding.rs:252-261 | every integer is the count of a valid date |
| SortKeys.NumberKeysSort | crates/oxilite-core/src/encoding.rs:341-350 | the bit transform orders finite and infinite doubles by value, -0 just below +0 |
| SortKeys.HexOrder | crates/oxilite-core/src/encoding.rs:349 | fixed-width hexadecimal is in numeric order |
| SortKeys.KindsSort | crates/oxilite-core/src/encoding.rs:351-373 | blank nodes come before IRIs, numbers, other literals and triple terms, in that order |
| SortKeys.NumbersSort | crates/oxilite-core/src/encoding.rs:354-364 | numeric literals sort by value |
| SortKeys.TriplesSort | crates/oxilite-core/src/encoding.rs:367-372 | triple terms sort by subject, predicate and object keys at any depth, if their texts have no character up to U+0002 |
| SortKeys.NamesSort | crates/oxilite-core/src/encoding.rs:352-353 | IRIs are in the order of their texts, and blank nodes of their labels |
| SortKeys.TriplesSortByComponents | crates/oxilite-core/src/encoding.rs:367-372 | triple terms with clean texts by subject, blank nodes first, then predicate, then object |
| SortKeys.OtherLiteralsSort | crates/oxilite-core/src/encoding.rs:362-365 | other literals sort by lexical form, then datatype, if those have no character up to U+0001 |
| SortKeys.SafeTextsSort | crates/oxilite-core/src/encoding.rs:362-365 | a literal whose text is safe sorts right against every clean literal with a datatype IRI |
| SortKeys.UnsafeTextsSortWrong | crates/oxilite-core/src/encoding.rs:362-365 | any other has a clean literal with a datatype IRI against which it sorts wrong |
| SortKeys.TextsSortExactly | crates/oxilite-core/src/encoding.rs:362-365 | right against every clean literal if and only if the text is safe: no character up to U+0001, or U+0001 first of them with a rest that comes after every IRI scheme |

## Left out

- Answers.SchemaAnswers: asks that `rdf:type` does not lead to the two schema properties once a class is given anew; `RewritingLimits` has the exact condition for the other properties only.
- OwlSoundness.RoundsAreSound: blank nodes denote as ids do; the semantic conditions are those the rules use.
- OwlRules.RulesAreMonotone: leaves out `cls-int1` and `prp-spo2`, which are not monotone (`LeastClosed.KeptListsKeepConclusions` says when they are); the place counter of `prp-spo2` stops at the number of triples, where the SQL would not end on a cyclic `rdf:rest`.
- MaterializeJobs.Materialize: the requests of one job run without other writers between its rounds.
- LeastClosed.RuleOrderDoesNotMatter: speaks of inferences only, attribution aside; between the stores it covers and those whose rules do write lists, `LeastClosed.RestingRoundsAreLeast` decides by the lists at the end.
- Jobs.ReachableStoresAreCoherent: terms are stored before the quads of the same write; if that write then fails they stay, which the code's request would undo.
- Dictionaries.StoredTermsAreHeld: assumes that ids of triple terms do not collide, because no trigger guards `triple_terms`.
- Resolver.TermResolver.Absorb: answer rows have the columns of the table asked; a row of the other table is a corruption error.
- RegistryReader.EntriesFromRows: returns entries as a set with targets and imports as sets; the sort by role and graph name and repeated targets are not modelled.
- RegistryUpdates.CommandsReadBack: commands name no node that other triples of the registry graph describe (the system graphs).
- Vectors.CreatePerforms: without the index on sparse embeddings, which holds no rows of its own; an embedding is its object's text under an element type, not its bytes.
- SortKeys.NumbersSort: the double that a numeric literal parses to is a parameter, as is the rounding of large inline integers.
- Calendar.OrderIsKept: years are unbounded; overflow of 64-bit integers is not modelled.
- Bulk loading with `insert_request`, which skips the refreshes on purpose and leaves the caches stale until `optimize`.
- `shapes_in`, which is allowed to go stale on list edits.
- Versioning and as-of reads, `hide_schema`, and the assembly of the reasoning base from asserted and inferred quads: the base of a rewritten pattern is any set of quads whose subjects are no literals.
- The SPARQL compiler and planner, the fallback evaluator (an update with an operation that falls back is not planned as one request), and templates with triple terms.
- SQL text: how rules and compounds are spelled, split and renamed, size limits, index choice; the rows of UNION ALL are taken without multiplicity.
- The columns `num`, `nt`, `ts`, `vk` and `sk` of dictionary rows, and `dir` for typed literals; `value_key`.
- The scan, statistics and named-graph read jobs, opening and migrating a store.
- Hash functions, freshness of random blank nodes, vector distances, full-text search.
