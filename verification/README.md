# Verified models of the packet gate and the scheduler

This project states and proves, in Dafny 4.11, what the parts of the server compute that decide
whether a packet is accepted and who works on it. The modules follow the program's files.

**JSON Schema engine** (`lib/json-validator.cpp`, `lib/json-uri.cpp`, `lib/json-patch.cpp`).
A schema document is compiled into a graph of schema objects through a registry that maps
locations and fragments to schemas and to references that still wait for theirs; instances are
then validated by loops with early exits, nested error handlers and a shared patch of defaults.

- `Json` has the values, their comparison and JSON pointers; `SchemaGraph` the compiled schemas and
  the rank that makes validation end; `Evaluation` the ordered list of reports and patch operations
  of a validation as a function (`Run`); `Validator` the code itself, proved to deliver exactly that
  list to any handler; `Meaning` what a schema says, and the theorem that nothing is reported
  exactly when it holds.
- `Pointers` and `DefaultPatch` say where reports and patch operations point: right for all
  schemas without `propertyNames`, `dependencies`, `contains` and later tuple positions, and below
  those keywords exactly when a stated lookup succeeds; and that the patch of defaults is a
  conservative extension.
- `Messages` and `ReportOrder` say what the reports are: true of the instances they name, counted,
  and in a fixed order; `Utf8` that lengths are counted in code points. `Defaults`, `DocumentDefaults`
  and `KeptPatch` say that the defaults due are added, each once, that nothing else is, that they are
  there in the patched instance, and which branches are kept.
- `Strings`, `Percent` and `Uri` model URIs: escaping, the percent-decoding loop (which does not
  always end), resolution, and the stability of locations; `Resolution` says what every form of
  reference resolves to.
- `Documents` reads schema documents keyword by keyword; `Registry` has the registry, what it knows
  of the document behind each stored schema (this is not in the program), and its invariant;
  `Denotation` says when a schema object is the compiled form of a document, all of whose
  sub-schemas are compiled and found under their URIs; `CompileSteps` and `Compiler` are
  `schema::make`, the registry operations and the load loop, on the fields of a class.
- `Library` says which documents are behind the URIs: exactly the sub-schemas, at any depth, of the
  root document, the fetched documents and the keywords that references asked for.
  `DocumentMeaning` gives the meaning of documents after JSON Schema Validation draft-07 (sections
  6.1 to 6.7) with the program's conventions, and of the references between them: the one reading
  of the URIs under which each means what the document behind it says. `CompiledMeaning` proves
  that there is exactly one when no cycle stays on one instance, and that compiled schemas mean what
  their documents say under it.
  `KeywordLaws` and `ApplicatorLaws` say outright what documents with one keyword, or one group of
  keywords, admit, down to the numbers that bounds stand for; `Located` that pointers mean the
  sub-schemas they lead to.
  `JsonValidator` joins both ends: once `set_root_schema` has returned, `validate` accepts an
  instance if and only if the root document admits it.
- `Tidiness` gives a condition on documents under which references and unknown keywords do not get
  into each other's way, which `Compiler` keeps; `InPlace` runs the compilation of unknown keywords
  in place, erasures included, and decides when it ends; `InPlaceRuns` has general runs and a
  condition on the keywords under which they never end, `InPlaceValues` documents that are compiled
  to something else than they say, `InPlaceSteps` what the two models have in common, and
  `PlanExamples` documents that meet the condition and documents that do not.

**Address automaton** (`lib/smtp-address-validator.cpp`): `Automaton` has the table-driven driver
for any tables of the stated shape.

**String formats** (`lib/string-format-check.cpp`): `Regexes` gives regular expressions their
matches; `IpAddress` and `Rfc3339` characterise the grammars and checks of addresses, dates and
times.

**Tasks and workers** (`sched/`, `worker_node/`, `sender_unit/`): `TaskPool`, `Scheduler`, `Worker`
and `WorkerRegistry` have the linked list and the queues as classes, and the concurrent parts as
state machines whose steps interleave freely, one read or write at a time. `Progress` says that every
accepted task can still be finished, and how soon a thread comes round; `Transmissions` what each
fetch of a run hands out, resends included.

No proof rests on automatic induction: lemmas to which Dafny would apply it carry
`{:induction false}`, and inductions are written out.

## Conventions of the program that the model follows

- Integers and floating-point numbers are separate kinds of instances; an integer validator cuts
  the fraction off its bounds; exclusive bounds replace inclusive ones.
- An empty `allOf`, `anyOf` or `oneOf` always fails.
- A type listed twice finds its keywords already erased. `additionalItems` counts only behind a
  list of items, and sub-schemas of `patternProperties` are registered without that token.
- A file that holds a schema because another document's `$id` put it there is not fetched.
- `getQueueSize()` computes `20 * (1/2)` in integers, so that `findIdealWorker` gives a tie to the
  worker with the fullest queue, where its log speaks of the emptiest.
- The flag of a failed draw in `generateWorkerUid` is never set again: it returns only if its very
  first draw is new.

## Keywords compiled in place

A `$ref` that points to an unknown keyword makes the program compile that keyword where it stands
in the tree of unknown keywords, erasing what it reads. A nested reference that points into the
same keyword, or to something around it, finds it half erased, erases more of it, or starts it
again. The document then has no single meaning for the schema to agree with, and the result
depends on the order in which keywords are read.

`Compiler` follows such a run up to the step that touches a keyword being compiled (a lookup that
finds something above or below it, a keyword kept there, a top-level member erased there) and
answers `Entangled` with the two places. Up to then every keyword being compiled provably stands in
the tree as it was found, so that what the program compiles in place is the document the model
compiles; and the recursion provably ends, as the places being compiled are finitely many and each
is entered once.

Whether this can happen is read off the documents. A `Plan` lists the unknown keywords that
references may ask for, each with its document and a rank, and the places where unknown keywords
are kept. The root document and the fetched documents keep to it (`SeedTidy`) when every reference
in them, at any depth, leads to no unknown keyword or to a listed one, of lower rank if the
reference is in a listed one itself; when what is kept at a listed place is the document listed;
and when listed keywords lie apart, have no unknown keywords of their own and do not belong to a
schema with several URIs. Then `SetRootSchema` never answers `Entangled` and the program compiles
what the documents say.

Without a plan it may not. A reference from a listed keyword into it or around it leaves no plan
(`RefersElsewhere`), and the documents of `ConstEmptied`, which have such a reference, are compiled
to schemas that admit an instance they forbid. What the program does from the step on that the
model cuts off is the subject of `InPlace`: compilation goes on for ever if and only if a keyword
is asked for while it is being compiled and nothing has been erased or stored since, which a cycle
of first references brings about, and otherwise ends within a computable bound.

## Model

| member | source | states |
|---|---|---|
| `SchemaGraph.WellFoundedIffNoCycle` | lib/json-validator.cpp:82-104 | the rank of a schema falls along every edge to a schema applied to the same instance exactly when every reference cycle passes through a keyword that descends into the instance |
| `SchemaGraph.ReferencesForever` | lib/json-validator.cpp:82-90 | following references from a schema never comes to anything but one more reference if and only if they lead back to one of them |
| `Digraphs.RankDecreasesIffAcyclic` | lib/json-validator.cpp:82-90 | in any finite closed graph, longest-walk depth is a rank for the edges if and only if there is no closed walk |
| `Digraphs.Pigeonhole` | lib/json-validator.cpp:82-90 | a walk longer than the graph meets a vertex twice |
| `Validator.Validate` | lib/json-validator.cpp:515-556 | validation ends, by (size of the instance, rank of the schema); the handler receives exactly the reports of `Run`, in order, or its first one if it throws, and the patch grows by exactly the operations of `Run` |
| `Validator.Probe` | lib/json-validator.cpp:398-405 | validation under a first-error handler of its own: the outer handler sees nothing, the patch keeps what was added |
| `Validator.ValidateCombination` | lib/json-validator.cpp:433-451 | the counting loop with its early exits reports what the recursive `RunCombination` lists; an empty list always fails |
| `Validator.TrySubschema` | lib/json-validator.cpp:437-446 | one turn of that loop: count, completion and report after one sub-schema |
| `Validator.IsValidateComplete` | lib/json-validator.cpp:480-499 | the completion test of `allOf`, `anyOf` and `oneOf`, re-reporting the inner pointer and instance for `allOf` |
| `Validator.ValidateOneLogic` | lib/json-validator.cpp:398-405 | `not` reports exactly when its schema reports nothing |
| `Validator.ValidateIf` | lib/json-validator.cpp:543-555 | `then` or `else` is validated with the caller's handler, `if` with its own |
| `Validator.ValidateObject` | lib/json-validator.cpp:1001-1060 | counts, required, members, defaults and dependencies, in this order |
| `Validator.ValidateMember` | lib/json-validator.cpp:1014-1042 | property name, listed property, matching patterns, and additional properties only when nothing matched |
| `Validator.AddDefaults` | lib/json-validator.cpp:1044-1053 | the patch grows by what `RunDefaults` says, for any object: by `Defaults.DefaultsExactly` that is the default of every listed property it lacks, each once, and nothing else |
| `Validator.ValidateDependencies` | lib/json-validator.cpp:1055-1059 | dependencies of present properties, under the pointer of the property |
| `Validator.ValidateArray` | lib/json-validator.cpp:1153-1206 | counts, uniqueness, elements, `contains` |
| `Validator.ValidateTuple` | lib/json-validator.cpp:1175-1191 | element by element under the pointer of element 0, stopping at the first element without a schema |
| `Validator.ValidateContains` | lib/json-validator.cpp:1193-1205 | the search stops at the first element that fits and reports when none does |
| `Validator.ValidateUnique` | lib/json-validator.cpp:1161-1167 | one report for each element that equals a later one |
| `Validator.ValidateNumber` | lib/json-validator.cpp:863-884 | multiple, maximum, minimum; exclusive bounds |
| `Validator.ValidateString` | lib/json-validator.cpp:721-777 | lengths in code points, content, pattern, format, of a string instance (binary instances are left out) |
| `Validator.Utf8Length` | lib/json-validator.cpp:711-719 | the loop over bytes counts code points |
| `Meaning.Verdict` | lib/json-validator.cpp:515-556 | for every graph without a cycle on one instance, every schema and every instance: no report if and only if the declarative meaning `Sat` holds |
| `Meaning.CombinationVerdict` | lib/json-validator.cpp:433-499 | the early-exit loops decide all, at least one, exactly one; nothing of an empty list |
| `Meaning.ObjectVerdict` | lib/json-validator.cpp:1001-1060 | an object is reported exactly when it misses a count, a required name, a member rule or a dependency |
| `Meaning.ArrayVerdict` | lib/json-validator.cpp:1153-1206 | an array is reported exactly when it misses a count, uniqueness, an element rule or `contains` |
| `Json.EqualIffSameNormal` | lib/json-validator.cpp:525-537 | the comparison used by `enum`, `const` and `uniqueItems`, in which 1, 1u and 1.0 are equal, is equality of normal forms, hence an equivalence |
| `Messages.MessagesTrue` | lib/json-validator.cpp:515-556 | every report of every validation, of any graph, schema and instance, says what is true of the instance it names: the string is too short, the member is missing, the element is repeated; so do the messages that `allOf` and `additionalProperties` pass on of the instances they name |
| `Messages.BoundNamed` | lib/json-validator.cpp:865-876 | a broken bound is named, as reached when it is exclusive and as passed otherwise, in one report |
| `Messages.ItemsNamed` | lib/json-validator.cpp:1155-1159 | too many and too few elements are reported exactly when there are more or fewer than the limit |
| `Messages.PropertiesNamed` | lib/json-validator.cpp:1003-1012 | and so for members; a name is reported missing exactly when it is required and absent |
| `Messages.CombinationNamed` | lib/json-validator.cpp:433-499 | `anyOf` and `oneOf` report exactly by the number of schemas that succeed: none, or several for `oneOf`, about the instance itself |
| `Messages.AllOfNamed` | lib/json-validator.cpp:480-485 | `allOf` reports the first report of the first schema that has one, where that schema reports it, and nothing else |
| `Messages.AdditionalNamed` | lib/json-validator.cpp:1035-1041 | a member that nothing names is reported as one of its object, with the first message of the schema for such members |
| `Messages.RepeatsCounted` | lib/json-validator.cpp:1161-1167 | as many reports as there are elements that equal a later one |
| `ReportOrder.KindFirst` | lib/json-validator.cpp:515-556 | the first report, which is thrown or kept, comes from the type, then the values, then the logic, then `if` |
| `ReportOrder.MissingFirst` | lib/json-validator.cpp:1009-1012 | of required names the first one missing is reported first |
| `ReportOrder.MembersFirst` | lib/json-validator.cpp:1001-1060 | of an object: counts and required names, then members, then defaults, then dependencies |
| `ReportOrder.MemberFirst` | lib/json-validator.cpp:1014-1042 | of the members the first about which something is reported |
| `ReportOrder.CountsFirst` | lib/json-validator.cpp:1153-1206 | of an array: too many, too few, repeated ones, then the elements, then `contains` |
| `Utf8.LengthOfText` | lib/json-validator.cpp:711-719 | of a text in UTF-8 (RFC 3629 section 3) exactly as many code points are counted as it has |
| `Pointers.RunSound` | lib/json-validator.cpp:480-485 | below a located instance, for schemas without `propertyNames`, `dependencies`, `contains` and position rules past the first: every reported pointer leads to the reported instance, re-reports of `allOf` and `additionalProperties` included; and likewise every patch operation adds a member absent from an object it reaches |
| `Pointers.WholeInstanceSound` | lib/json-validator.cpp:1445-1451 | the same for a whole instance from the empty pointer |
| `Pointers.RunUnder` | lib/json-validator.cpp:515-556 | for every graph, schema and instance: whatever is reported or added while an instance is validated under a pointer lies below that pointer |
| `Pointers.TupleReportsExact` | lib/json-validator.cpp:1169-1191 | every report of the tuple loop, about whatever element, lies below the pointer of element 0, and is right if and only if the rest of its pointer, followed from element 0, ends at the reported instance; likewise for the patch |
| `Pointers.DependencyReportsExact` | lib/json-validator.cpp:1055-1059 | a report of a dependency lies below the property that asks for it, and is right if and only if the rest of its pointer, followed from that property, ends at the reported instance; never when the report is about the object itself; a default lies below that property too, and can be added if and only if the rest of its pointer leads from the property to an object without the member |
| `Pointers.NameReportsNever` | lib/json-validator.cpp:1014-1016 | no report of `propertyNames` about a property name points right |
| `Pointers.TupleReportMisplaced` | lib/json-validator.cpp:1175-1191 | a concrete failing tuple whose report points to the wrong element |
| `Pointers.ContainsPatchExact` | lib/json-validator.cpp:1193-1205 | what `contains` adds to the patch lies below the pointer of the array, and is right if and only if the rest of the pointer, followed from the array, leads to an object without that member; never when it is meant for the element itself |
| `DefaultPatch.ContainsDefaultMisplaced` | lib/json-validator.cpp:1193-1203 | a whole validation of `[{}]` that is silent, and whose patch, the default of a property inside `contains`, is addressed to the array and cannot be applied |
| `DefaultPatch.PatchIsConservative` | lib/json-patch.cpp:86-90 | the whole patch, operations of failed branches included, always applies; every path of the instance still leads to what it led to, with members added to some objects and nothing else changed |
| `DefaultPatch.PathsSurvive` | lib/json-patch.cpp:86-90 | an extension keeps every path |
| `DefaultPatch.AddExtends` | lib/json-validator.cpp:1044-1053 | adding an absent member to an object reached in the original succeeds in every extension of it and yields an extension |
| `DefaultPatch.ScalarParentFails` | lib/json-patch.cpp:86-90 | an operation addressed to a boolean or a string cannot be applied |
| `Defaults.DefaultExactly` | lib/json-validator.cpp:82-104 | the default of a schema is the one written beside it or, behind references without one, beside the first schema that they lead to that is no such reference; stated without the recursion |
| `Defaults.DefaultsExactly` | lib/json-validator.cpp:1044-1053 | for every object and every operation: it is in what is added exactly once if it puts, below the pointer of the object, the default that is not null of a listed property that the object lacks, and not at all otherwise |
| `Defaults.ObjectPatch` | lib/json-validator.cpp:1001-1060 | in the patch of an object these defaults stand together, behind what its members add and before what its dependencies and the logic add |
| `Defaults.DefaultAdded` | lib/json-validator.cpp:1044-1053 | so every default due is in the patch of the object, whatever else the object holds |
| `Defaults.MemberPatch` | lib/json-validator.cpp:1022-1024 | what a listed member of an object adds to the patch, the object adds |
| `Defaults.AddedThere` | lib/json-patch.cpp:86-90 | after an addition that can be made, its member is found with its value |
| `Defaults.AddedElsewhere` | lib/json-patch.cpp:86-90 | and every other member that can be added is found, or not found, as before |
| `Defaults.PatchedHas` | lib/json-patch.cpp:86-90 | after a whole patch every member that it adds is found with its value, if all its operations for that member agree |
| `Defaults.DefaultInPlace` | lib/json-validator.cpp:1044-1053 | so, for schemas whose operations all point right: once the patch of a validation is applied, the missing property of an object anywhere in the instance has its default, when no other default is added there |
| `DocumentDefaults.DenotedDefault` | lib/json-validator.cpp:617-621 | a compiled schema gives the `default` of its document, beside a `$ref` too unless that leads to a bare boolean |
| `DocumentDefaults.WrittenDefaultAdded` | lib/json-validator.cpp:1044-1053 | from the document to the patch: an object that lacks a property of a compiled document gets the default written there |
| `KeptPatch.NotAdds` | lib/json-validator.cpp:398-405 | `not` keeps what its schema adds, whether that fails or not |
| `KeptPatch.CombinationAdds` | lib/json-validator.cpp:433-451 | `allOf`, `anyOf` and `oneOf` keep what every schema adds that they try: until one fails, until one succeeds, until two have |
| `KeptPatch.IfAdds` | lib/json-validator.cpp:543-555 | `if` keeps what its schema adds and what the branch adds that it chooses |
| `KeptPatch.MemberAdds` | lib/json-validator.cpp:1026-1041 | what a member adds by a pattern or as an additional property is kept |
| `KeptPatch.DependencyAdds` | lib/json-validator.cpp:1055-1059 | and what the schema of a dependency adds |
| `KeptPatch.ElementAdds` | lib/json-validator.cpp:1169-1174 | and what every element adds at its own place |
| `KeptPatch.ContainsAdds` | lib/json-validator.cpp:1193-1205 | `contains` keeps what every element adds up to the first that fits |
| `Handlers.ErrorHandler.Error` | lib/json-validator.cpp:373-392 | the first-error handler keeps the first report, the throwing one leaves by an exception, any other records |
| `Handlers.JsonPatch.Add` | lib/json-patch.cpp:86-90 | appends one `add` operation |
| `JsonValidator.JsonValidator.CompareHandlers` | lib/json-validator.cpp:1376-1382 | one instance validated under the throwing, the first-error and a recording handler: the first throws exactly when the second is set, both with the first report of the third, and without a report all three return the same patch |
| `Percent.LoopEndsIffDecoded` | lib/json-uri.cpp:25-43 | the in-place right-to-left loop reaches its end with text r after some number of steps if and only if the recursive decoding is defined and equals r |
| `Percent.PlainStartDecodes` | lib/json-uri.cpp:25-43 | every fragment that does not begin with a percent sign is decoded, in one pass |
| `Percent.OnePercentLoops` | lib/json-uri.cpp:25-43 | a fragment whose only percent sign is its first character keeps the loop going for ever if and only if the rest is "25" any number of times and one character more |
| `Percent.ShortFragmentLoops` | lib/json-uri.cpp:25-43 | "%" and one character keep the loop going for ever |
| `Percent.DecodeInPlace` | lib/json-uri.cpp:25-43 | the loop as written computes that decoding wherever it ends |
| `Percent.PassDecodesOnce` | lib/json-uri.cpp:33-41 | on well-formed text right-to-left rewriting is left-to-right decoding with each triplet decoded once (RFC 3986 section 2.1) |
| `Percent.EncodeDecodes` | lib/json-uri.cpp:25-43 | decoding inverts percent-encoding, whatever characters the encoder left alone |
| `Percent.FragmentRoundTrip` | lib/json-uri.cpp:25-43 | decoding "/" and the encoding of s gives "/" and s |
| `Percent.ByteExactly` | lib/json-uri.cpp:37-38 | the byte for what follows a percent sign: two digits of either alphabet, one digit and something else, a digit behind a sign or a blank, and zero otherwise |
| `Strings.EscapeRoundTrip` | lib/json-uri.cpp:137-157 | the escaped text has no slash and only "~0" and "~1" after a tilde, and unescaping inverts it (RFC 6901 section 4) |
| `Strings.EscapeInjective` | lib/json-uri.cpp:137-157 | different tokens have different escapes |
| `Strings.TwoPassesEscape` | lib/json-uri.cpp:137-157 | tildes first, slashes second: the two passes are one substitution per character |
| `Strings.ReplaceEach` | lib/json-uri.cpp:139-149 | the in-place search and replace loop substitutes every occurrence once |
| `Strings.EscapeInPlace` | lib/json-uri.cpp:137-157 | `escape` computes the one-pass substitution |
| `Strings.PointerRoundTrip` | lib/json-uri.cpp:85-91 | a pointer written as text and parsed again gives the same tokens |
| `Strings.PointerExamples` | lib/json-uri.cpp:85-91 | the examples of RFC 6901 section 5 |
| `Uri.JsonUri.UpdateLocation` | lib/json-uri.cpp:45-84 | the field updates are those of the function `WithLocation`, which `Resolution` pins down form by form, and a path on a urn is refused with nothing changed |
| `Uri.JsonUri.Update` | lib/json-uri.cpp:16-100 | the new fields are the function `Updated` of the old ones, which `Resolution` pins down for every reference; after an exception the fields hold what had been stored by then |
| `Uri.JsonUri.Derived` | lib/nlohmann/json-schema.hpp:95-100 | `derive` returns a fresh object with the updated value, or the exception, and leaves its own |
| `Uri.JsonUri.Appended` | lib/nlohmann/json-schema.hpp:103-111 | `append` returns a fresh object with one token more, or an equal one behind a plain name |
| `Uri.StableIff` | lib/json-uri.cpp:45-84 | exactly these texts are reproduced by `location()` after parsing: empty, urn, nonempty scheme, or absolute path |
| `Uri.UpdatedIsCanonical` | lib/nlohmann/json-schema.hpp:95-100 | resolving any reference that does not begin with "://" keeps a URI canonical |
| `Uri.BuiltLocationStable` | lib/nlohmann/json-schema.hpp:95-111 | for every URI built by construction, `derive` and `append` from such references, re-parsing `location()` gives the same `location()` |
| `Uri.EmptySchemeUnstable` | lib/json-uri.cpp:62-81 | "://h/p" is a URI whose location does not re-parse to itself |
| `Uri.SimpleReference` | lib/json-uri.cpp:45-84 | a name without "#", "/" and ":", resolved from the root document or from the file of such a name, gives the file of that name, so that files referring to one another by such names stay among finitely many locations |
| `Resolution.Sibling` | lib/json-uri.cpp:85-87 | a relative path takes the place of what follows the last slash of the base; scheme and authority are kept |
| `Resolution.Child` | lib/json-uri.cpp:85-87 | when the base has no slash it goes behind one |
| `Resolution.Rooted` | lib/json-uri.cpp:83-84 | a path from the root replaces the whole path and keeps scheme and authority |
| `Resolution.PathOfUrn` | lib/json-uri.cpp:79-81 | a path is refused on a urn |
| `Resolution.ToUrn` | lib/json-uri.cpp:49-56 | a urn replaces everything |
| `Resolution.Absolute` | lib/json-uri.cpp:61-84 | an absolute URL with a path replaces everything, whatever the base |
| `Resolution.AbsoluteBare` | lib/json-uri.cpp:70-89 | without a path it keeps the authority of the base and is appended to its path |
| `Resolution.PartsOf` | lib/json-uri.cpp:61-77 | every location with "://" in it has one of these two forms |
| `Resolution.WithFragmentPart` | lib/json-uri.cpp:93-99 | a reference with a fragment goes where its location goes, and there to the pointer, or to the plain name, that the decoded fragment is; alone it stays in the file |
| `Registry.AddNodeKeeps` | lib/json-validator.cpp:1320-1358 | a new schema object keeps the registry consistent |
| `Registry.AddReferenceKeeps` | lib/json-validator.cpp:267-275 | a reference created for an unknown URI keeps it consistent and only grows it |
| `Registry.StoreKeeps` | lib/json-validator.cpp:182-199 | storing a schema under a free URI keeps it consistent, gives the waiting reference its target, remembers the document, and only grows it |
| `Registry.SetUnknownKeeps` | lib/json-validator.cpp:216-235 | changing the unknown keywords of a file keeps it consistent |
| `Registry.SameUriSameSchema` | lib/json-validator.cpp:243-277 | references handed out for one URI at different times have the same target, and are one reference while there is none |
| `Registry.ReferenceTargetsStored` | lib/json-validator.cpp:182-199 | a reference handed out for a URI has target s if and only if s is what is stored under that URI, whichever came first |
| `Registry.NothingWaiting` | lib/json-validator.cpp:312-336 | when no file has unresolved entries, every reference in the graph has a target, the schema stored under the URI it was handed out for |
| `Denotation.DenotesStable` | lib/json-validator.cpp:1296-1374 | what is compiled stays compiled: being the compiled form of a document survives every growth of the registry |
| `CompiledMeaning.CompiledMeaning` | lib/json-validator.cpp:1296-1374 | a node that denotes a document admits exactly the instances the document describes, keyword by keyword, for every reading of the URIs under which each URI means what the document behind it says; by induction over the instance, the graph on one instance, and the order in which schemas were stored |
| `CompiledMeaning.KindMeaning` | lib/json-validator.cpp:582-643 | the type table: listed types, the number rules for integers when only numbers are listed, unsigned numbers as integers, keywords erased on a second listing; what is said of the numbers is in `KeywordLaws.NumbersExactly` |
| `CompiledMeaning.ObjectMeaning` | lib/json-validator.cpp:1063-1137 | object keywords |
| `CompiledMeaning.ItemsMeaning` | lib/json-validator.cpp:1229-1243 | `items` as one schema or as a list, `additionalItems` only behind a list |
| `CompiledMeaning.RefMeaning` | lib/json-validator.cpp:1336-1352 | a `$ref`, with or without a default beside it, admits what the document behind its URI says |
| `CompiledMeaning.LibraryMeaning` | lib/json-validator.cpp:279-337 | what the stored documents say of each other's URIs, taken together, has a solution, and only one, recursive references included: what the stored schemas admit |
| `CompiledMeaning.AdmitsMeaning` | lib/json-validator.cpp:1296-1374 | a node that denotes a document admits exactly what the document admits under that solution |
| `KeywordLaws.StandsExactly` | lib/json-validator.cpp:882-903 | the number that a bound stands for, without the reading function: itself, and for integers the integer nearest to it between zero and it |
| `KeywordLaws.NumbersExactly` | lib/json-validator.cpp:865-903 | a document with bounds and the type `number` or `integer` admits exactly the numbers of that type that keep to every bound in effect, an exclusive bound replacing the inclusive one beside it |
| `KeywordLaws.OneBound` | lib/json-validator.cpp:865-903 | a document with the type `number` and one bound, given as an unsigned number, an integer or a float b, admits a number x exactly when x <= b, x < b, b <= x or b < x |
| `KeywordLaws.OneIntegerBound` | lib/json-validator.cpp:865-903 | and of integers those on that side of the bound without its fraction |
| `KeywordLaws.MultipleLaw` | lib/json-validator.cpp:862-864 | `multipleOf` alone admits zero and what the check lets pass |
| `KeywordLaws.CountsExactly` | lib/json-validator.cpp:780-790 | the size that a number stands for: without its fraction, wrapped into 64 bits |
| `KeywordLaws.SizeLaw` | lib/json-validator.cpp:1068-1222 | each of the six limits on lengths, elements and members, alone: what it admits of its own kind of instance; all of any other |
| `KeywordLaws.TextLaw` | lib/json-validator.cpp:792-841 | `pattern`, `format` and content keywords, alone |
| `KeywordLaws.ContentLaw` | lib/json-validator.cpp:792-817 | encoding and media type are checked together |
| `KeywordLaws.RequiredLaw` | lib/json-validator.cpp:1080-1084 | `required`, alone |
| `KeywordLaws.UniqueLaw` | lib/json-validator.cpp:1224-1228 | `uniqueItems`, alone |
| `KeywordLaws.TypeLaw` | lib/json-validator.cpp:589-615 | `type` alone: one name or a list of names; a document with any other value, or none of the seven names, admits nothing |
| `KeywordLaws.ValueLaw` | lib/json-validator.cpp:640-650 | `const` and `enum`, alone |
| `KeywordLaws.TwiceLaw` | lib/json-validator.cpp:603-608 | a type listed twice admits all its instances whatever the keywords for it say |
| `ApplicatorLaws.ScopeInside` | lib/json-validator.cpp:1302-1311 | a sub-schema has the pointers of the schema around it with its own tokens behind; plain names do not reach inside |
| `ApplicatorLaws.IdLaw` | lib/json-validator.cpp:1320-1328 | `$id` adds what it resolves to from the last URI, unless what it is by itself is listed already |
| `ApplicatorLaws.ReferenceLaw` | lib/json-validator.cpp:1337-1342 | a document with a `$ref` admits what is said of the URI it resolves to from the last one |
| `ApplicatorLaws.NotLaw` | lib/json-validator.cpp:652-656 | `not`, alone |
| `ApplicatorLaws.CombinationLaw` | lib/json-validator.cpp:658-674 | `allOf` admits what all of a list admit that is not empty, `anyOf` what one does, `oneOf` what one does and no other |
| `ApplicatorLaws.IfLaw` | lib/json-validator.cpp:676-695 | `if` with `then` and `else`, either of which may be missing |
| `ApplicatorLaws.PropertiesLaw` | lib/json-validator.cpp:1014-1042 | `properties`, `patternProperties` and `additionalProperties` in any company, member by member |
| `ApplicatorLaws.NamesLaw` | lib/json-validator.cpp:1014-1016 | `propertyNames`, alone |
| `ApplicatorLaws.DependenciesLaw` | lib/json-validator.cpp:1114-1130 | `dependencies` on names and on schemas |
| `ApplicatorLaws.ItemsLaw` | lib/json-validator.cpp:1230-1249 | `items` as one schema or as a list, with `additionalItems` |
| `ApplicatorLaws.AdditionalLaw` | lib/json-validator.cpp:1238-1242 | `additionalItems` without a list of items says nothing |
| `ApplicatorLaws.ContainsLaw` | lib/json-validator.cpp:1193-1205 | `contains`, alone |
| `Library.PartPlaced` | lib/json-validator.cpp:1296-1374 | every sub-schema of a compiled document, under whatever keyword, is compiled too, from that very document, and stored under the URIs its tokens and its `$id` give it |
| `Library.DescendantPlaced` | lib/json-validator.cpp:1296-1374 | and so at any depth |
| `Library.LibraryExactly` | lib/json-validator.cpp:182-199 | under a URI stands a document, with its scope, if and only if it is a sub-schema, at any depth, of a document that was compiled, and is registered under that URI |
| `Located.PartStands` | lib/json-validator.cpp:1308-1311 | a sub-schema stands in the document where its tokens lead; not so behind `patternProperties`, which are registered without that token |
| `Located.DescendantStands` | lib/json-validator.cpp:1308-1311 | at any depth, the URI of a sub-schema is the pointer that leads to it, when no `$id` and no `patternProperties` stand in the way |
| `Located.PointerMeans` | lib/json-validator.cpp:243-277 | so of the URI with a pointer into the root document is said what the schema says that the pointer leads to |
| `CompileSteps.KindFrom` | lib/json-validator.cpp:582-611 | a validator built from the members that are left when its turn comes says the same about the whole document |
| `CompileSteps.TypeClosed` | lib/json-validator.cpp:572-696 | a compiled schema refers to existing schemas only, and lists each property once |
| `CompileSteps.PutPathKeeps` | lib/json-validator.cpp:216-235 | keeping an unknown keyword leaves objects well-formed and brings in no reference or id that was not there; what it changes is in the next two |
| `CompileSteps.ReplaceAtKeeps` | lib/json-validator.cpp:255-261 | replacing a keyword by what is left of it leaves objects well-formed and brings in no reference or id that was not there |
| `CompileSteps.ReplaceAtElsewhere` | lib/json-validator.cpp:255-261 | and everything that stands neither above nor below the replaced keyword is found, or not found, as before, behind object keys and array indices alike |
| `CompileSteps.ReplaceAtFound` | lib/json-validator.cpp:259 | what replaces a keyword stands where the keyword stood |
| `CompileSteps.ForgetErases` | lib/json-validator.cpp:261 | a forgotten keyword is gone |
| `CompileSteps.UnknownBesideReference` | lib/json-validator.cpp:1337-1361 | the unknown keywords of a schema with a `$ref` are all but the few read beside it |
| `CompileSteps.UnknownWithoutType` | lib/json-validator.cpp:572-696 | without a `type`, those that mean nothing to any validator, `then` and `else` without `if`, and `additionalItems` without a list of items |
| `Compiler.RootSchema.Insert` | lib/json-validator.cpp:182-199 | refused exactly when the URI is taken; otherwise the whole new state is `Store` of the old one, with the document behind the schema |
| `Compiler.RootSchema.GetOrCreateRef` | lib/json-validator.cpp:243-277 | what is handed out for a URI is the schema stored under it, with nothing changed; else the unknown keyword its pointer finds, compiled and stored there; else the reference that waits for it, or a new one and no other change; a lookup that reaches or passes through a keyword being compiled in place is answered `Entangled`, any other only if a keyword compiled for it is, and under a plan none; the keywords being compiled stay as they are |
| `Compiler.RootSchema.TurnIntoSchema` | lib/json-validator.cpp:251-264 | a referenced unknown keyword denotes the document found in the tree and is stored under that URI; until its leftover replaces it the keyword stands in the tree as it was found, nested compilations included, so that compiling it in place and compiling a copy are the same |
| `Compiler.RootSchema.MakeInPlace` | lib/json-validator.cpp:258-259 | compiling the keyword where it stands, with every compilation this sets off, leaves the keyword as it was found, whether it succeeds or fails |
| `Compiler.RootSchema.ForgetKeyword` | lib/json-validator.cpp:255-261 | the keyword is replaced by what is left of it and the top-level member named like the fragment is erased, exactly when that member is not above or below a keyword being compiled; those stay as they are |
| `Compiler.ForgottenElsewhere` | lib/json-validator.cpp:255-261 | no keyword beside the replaced one and the erased one is touched |
| `Compiler.RootSchema.WaitingReference` | lib/json-validator.cpp:267-275 | the reference already waiting, or the exact state with a new one |
| `Compiler.RootSchema.InsertUnknownKeyword` | lib/json-validator.cpp:201-241 | the keyword is kept or made, and the members left in it are entered one after the other, each from the state the one before left |
| `Compiler.RootSchema.InsertUnknowns` | lib/json-validator.cpp:237-240 | every member of an object is entered in turn; the members left are the given ones with keywords erased in place |
| `Compiler.RootSchema.KeepOrMake` | lib/json-validator.cpp:201-235 | a keyword a reference waits for is compiled and stored under its URIs; one that stands in the tree already, in a document compiled in place, is assigned to itself; any other is kept under its pointer and nothing else changes |
| `Compiler.RootSchema.MakeAwaited` | lib/json-validator.cpp:206-209 | a keyword that a reference waits for is compiled and stored under its URI |
| `Compiler.RootSchema.Keep` | lib/json-validator.cpp:216-235 | a keyword is kept if and only if its place does not overlap a keyword being compiled and its path crosses only objects; otherwise nothing changes |
| `Compiler.RootSchema.Register` | lib/json-validator.cpp:1366-1372 | each URI in turn: it was free, the schema is stored, and the members still left are entered |
| `CompileSteps.PutPathFound` | lib/json-validator.cpp:221-235 | a keyword kept under its tokens is found by its pointer |
| `CompileSteps.PutPathElsewhere` | lib/json-validator.cpp:221-235 | what stands neither above nor below it is found, or not found, as before |
| `Compiler.RootSchema.PutDefault` | lib/json-validator.cpp:106-119 | a default beside `$ref` goes into a copy, into a reference to the reference, or nowhere |
| `Compiler.RootSchema.MakeTable` | lib/json-validator.cpp:582-643 | the table denotes the listed types of the document although the validators erase keywords one after the other; what references reach in the meantime leaves the document alone, or ends in `Entangled` |
| `Compiler.RootSchema.MakeObject` | lib/json-validator.cpp:1063-1137 | the object validator denotes the object keywords |
| `Compiler.RootSchema.MakeArray` | lib/json-validator.cpp:1209-1251 | the array validator denotes the array keywords |
| `Compiler.RootSchema.MakeString` | lib/json-validator.cpp:780-842 | the string validator denotes the string keywords, and is refused exactly when one has a wrong type, the pattern is no regular expression, or a format or content keyword lacks its checker |
| `Compiler.RootSchema.MakeLogic` | lib/json-validator.cpp:651-673 | `not`, `allOf`, `anyOf` and `oneOf`, in this order |
| `Compiler.RootSchema.MakeIf` | lib/json-validator.cpp:675-694 | `if` counts only beside `then` or `else` |
| `Compiler.RootSchema.MakeType` | lib/json-validator.cpp:572-696 | the node denotes the keywords of a schema without `$ref` |
| `Compiler.RootSchema.MakeDefinitions` | lib/json-validator.cpp:1329-1334 | every definition is compiled and stored under the URIs its place and its `$id` give it |
| `Compiler.RootSchema.MakeBody` | lib/json-validator.cpp:1329-1357 | the definitions first, and all of them found under their URIs; then a `$ref`, which is what `GetOrCreateRef` hands out, or the keywords |
| `Compiler.RootSchema.Make` | lib/json-validator.cpp:1296-1374 | compilation ends, by (places not being compiled, size of the document); on success the node denotes the document in its scope, with every sub-schema compiled and stored under its URIs, is stored under every URI of the scope, none of which was taken, and then registered and its unknown keywords entered as `Register` says; whatever was stored meanwhile comes from the same document or from a keyword that is stored itself; success or not, the registry invariant holds, nothing compiled before has changed and no keyword being compiled has been touched; an error names a missing checker, an invalid pattern, a place that overlaps one being compiled (never under a plan), or a location outside the given ones only when there is one |
| `InPlace.EndlessIff` | lib/json-validator.cpp:251-264 | for every tree of unknown keywords and every list of jobs: if no keyword asks for itself before anything was erased or stored, which `Watch` decides without fuel, compilation in place ends with the answer of `Watch` for all fuel above a bound cubic in the size of the tree and the number of URIs; otherwise it exhausts any fuel |
| `InPlace.Enough` | lib/json-validator.cpp:251-264 | the one half, for any machine whose steps change nothing or erase or store something, and whose calls go deeper or ask for a keyword that is not stored |
| `InPlace.NeverEnough` | lib/json-validator.cpp:251-264 | the other half |
| `InPlace.NowProper` | lib/json-validator.cpp:1296-1374 | the steps of compilation in place are such steps |
| `InPlaceRuns.Leads` | lib/json-validator.cpp:1296-1374 | compiling a schema comes down to asking for the place that its first reference, in the order the program reads the keywords, leads to, with nothing erased or stored before |
| `InPlaceRuns.CycleEndless` | lib/json-validator.cpp:251-264 | keywords that each ask first for the next, the last one for the first: a condition on the tree under which asking for any of them never ends, whatever the fuel |
| `InPlaceRuns.RecursiveKeyword` | lib/json-validator.cpp:251-264 | an unknown keyword of any name with a property that refers to the keyword itself, an ordinary recursive schema: asking for it never ends, whatever the fuel |
| `InPlaceValues.ConstEmptied` | lib/json-validator.cpp:255-261 | for every plain name and every title: an unknown keyword with a `const` and a definition that refers to the value of that `const` is compiled in place to a schema that admits the empty object, which the document does not admit, under any reading of its references |
| `InPlaceSteps.AskAlike` | lib/json-validator.cpp:243-277 | the compiler cuts a lookup off exactly where the machine that erases in place would touch a keyword being compiled; everywhere else the two take the same branch: stored already, waiting, no such place, or compiled and then forgotten |
| `InPlaceSteps.ForgetAlike` | lib/json-validator.cpp:259 | and a keyword is forgotten by both, unless that erasure would touch a keyword being compiled |
| `Tidiness.KeptTidy` | lib/json-validator.cpp:216-235 | keeping an unknown keyword that the plan accounts for keeps the tree within the plan, and every keyword that may still be asked for is the document expected |
| `Tidiness.ForgottenTidy` | lib/json-validator.cpp:255-261 | and so does forgetting one that has become a schema, whatever else of that name is erased |
| `Tidiness.AskedApart` | lib/json-validator.cpp:243-277 | under a plan, what a reference finds among the unknown keywords is one of those foreseen, of lower rank than every keyword being compiled, and lies apart from them |
| `Tidiness.RefersElsewhere` | lib/json-validator.cpp:251-264 | a plan excludes every reference that leads from a keyword that may be asked for into that keyword or around it |
| `PlanExamples.AskingTidy` | lib/json-validator.cpp:243-277 | plans exist for documents that ask for an unknown keyword, of any plain name that is no keyword of schemas |
| `PlanExamples.DocumentUntidy` | lib/json-validator.cpp:255-261 | and none for asking for the document of `ConstEmptied` |
| `Compiler.RootSchema.Load` | lib/json-validator.cpp:296-305 | a fetched document is compiled and stored under the URI its location parses to, which is that very location when it is stable; one of the given locations fewer is bare |
| `Compiler.RootSchema.MakeFetched` | lib/json-validator.cpp:302 | everything stored for a fetched document comes from it, or from keywords that are stored themselves; its bare location is taken |
| `Compiler.RootSchema.LoadIfEmpty` | lib/json-validator.cpp:295-309 | a location is fetched exactly when its file holds no schema, and then holds that document; refused for want of a loader exactly when there is none and the file holds no schema |
| `Compiler.RootSchema.LoadRound` | lib/json-validator.cpp:284-307 | a round that fetches nothing leaves every file with a schema |
| `Compiler.RootSchema.LoadAll` | lib/json-validator.cpp:283-310 | the load loop ends, by the set of locations without a schema of their own, and leaves every file with at least one schema; a missing loader is reported only while some file holds none |
| `Compiler.RootSchema.LoadRest` | lib/json-validator.cpp:283-336 | the loop and the last check keep the root document where it is, and every stored schema accounted for by the root document, a fetched document or a stored keyword |
| `Compiler.RootSchema.CheckResolved` | lib/json-validator.cpp:312-336 | passes if and only if no file has an unresolved reference, else names such a file |
| `Compiler.RootSchema.SetRootSchema` | lib/json-validator.cpp:279-337 | on success every location ever mentioned holds a schema and no open reference, the root document is compiled under "#", and every stored schema is a sub-schema of the root document, of a fetched document or of a keyword a reference asked for, which are all stored themselves; never `Entangled` when the root document and the fetched documents keep to a plan; a missing loader is reported only when some file holds no schema, an undefined reference only when one is open and every file holds a schema |
| `Compiler.EnoughTexts` | lib/json-validator.cpp:279-310 | for every document, loader and finite set of locations there is a finite set of references and ids that covers them, so the hypotheses of `SetRootSchema` can be met |
| `JsonValidator.JsonValidator.ValidateWith` | lib/json-validator.cpp:339-364 | the schema stored under the initial URI is run; a missing root, file or schema is reported as such |
| `JsonValidator.JsonValidator.Validate` | lib/json-validator.cpp:1439-1451 | the patch, or the first report; once a root schema has been set and no cycle stays on one instance, the instance is accepted if and only if the root document admits it, its references meaning the documents of `LibraryExactly` under the solution of `LibraryMeaning`; what a document admits is spelled out keyword by keyword in `KeywordLaws` and `ApplicatorLaws` |
| `JsonValidator.RootVerdict` | lib/json-validator.cpp:1445-1451 | no report if and only if the root document admits the instance, with that meaning of references |
| `JsonValidator.StoredVerdict` | lib/json-validator.cpp:339-364 | the same for any schema stored under any URI |
| `JsonValidator.ReferenceMeaning` | lib/json-validator.cpp:243-277 | a `$ref` to a sub-schema, at any depth, of the root document, of a fetched document or of a keyword compiled, means that sub-schema, whether it was compiled before or after the reference, in this file or another |
| `JsonValidator.EveryReferenceFound` | lib/json-validator.cpp:312-336 | once everything is loaded, every URI a reference was handed out for stands for a sub-schema, registered there, of the root document, of a fetched document, or of a keyword that a reference asked for |
| `Automaton.PickedFits` | lib/smtp-address-validator.cpp:700-748 | exactly one transition of a state fits a character (its single key, else its range, else the default), and a linear scan picks it |
| `Automaton.SearchSingles` | lib/smtp-address-validator.cpp:704-725 | the first binary search ends, stays in bounds and finds what the scan of the single keys finds |
| `Automaton.SearchRanges` | lib/smtp-address-validator.cpp:727-746 | the second binary search stays on lower bounds, ends and finds what the scan of the ranges finds |
| `Automaton.FindTransition` | lib/smtp-address-validator.cpp:698-748 | both searches together pick the transition of the linear scan |
| `Automaton.RunActions` | lib/smtp-address-validator.cpp:752-782 | the action list is executed in order |
| `Automaton.LastDecides` | lib/smtp-address-validator.cpp:752-782 | the last action of a list that is 0 or 1 decides the flag: 0 sets it and 1 clears it |
| `Automaton.IsAddress` | lib/smtp-address-validator.cpp:654-830 | for all well-formed tables and all inputs the driver ends and the flag says whether the run from the start state ends in a final state |
| `Automaton.LetterAccepted` | lib/smtp-address-validator.cpp:654-830 | tables for a single letter are well-formed and accept that letter alone |
| `Ipv4.Ipv4Exactly` | lib/string-format-check.cpp:145-146 | the grammar matches exactly the printed forms of the 32-bit numbers, which reading inverts |
| `Ipv4.PrintParses` | lib/string-format-check.cpp:145-146 | reading a printed address gives the number back |
| `Ipv4.OctetIff` | lib/string-format-check.cpp:145 | the octet grammar matches exactly the decimal forms of 0 to 255 without leading zeros |
| `Ipv6.Ipv6Exactly` | lib/string-format-check.cpp:147-169 | the nine alternatives match exactly: eight groups without "::", or one "::" with at most seven groups around it, a dotted quad at the end counting as two |
| `Ipv6.GroupExactly` | lib/string-format-check.cpp:147-150 | a group is one to four digits of either alphabet |
| `Ipv6.HeadElim` | lib/string-format-check.cpp:150-164 | each alternative in front of the last 32 bits: six groups, or at most five around a "::" |
| `Ipv6.HeadIntro` | lib/string-format-check.cpp:150-164 | and every such arrangement is one of the alternatives |
| `Rfc3339.DateCheck` | lib/string-format-check.cpp:31-54 | passes exactly the texts of ten characters that read as a date of the Gregorian calendar |
| `Rfc3339.Gregorian` | lib/string-format-check.cpp:31-54 | the days of a month by the usual formula for the day of the year, with the leap days of the Gregorian calendar |
| `Rfc3339.DatesAccepted` | lib/string-format-check.cpp:31-54 | those are exactly the printed valid dates |
| `Rfc3339.LastMinute` | lib/string-format-check.cpp:92-101 | on the reachable range, splitting the minutes of a day by 24 gives 59 and 23 for the last minute of the UTC day and for no other |
| `Rfc3339.SecondCheck` | lib/string-format-check.cpp:92-103 | second 60 passes exactly in that minute |
| `Rfc3339.OffsetCheck` | lib/string-format-check.cpp:74-84 | the numeric offset in range, and its sign, which "-00" loses |
| `Rfc3339.TimeCheck` | lib/string-format-check.cpp:57-104 | passes exactly the texts of the shape whose fields are in range and whose second 60 is in the last minute the code computes |
| `Rfc3339.PassesIffValid` | lib/string-format-check.cpp:80-103 | the check agrees with RFC 3339 sections 5.6 and 5.7 on a time if and only if it is not second 60 with an offset "-00:MM", MM not zero, in one of two named minutes |
| `Rfc3339.SignLostExample` | lib/string-format-check.cpp:82-83 | a valid time that is refused, and an invalid one that passes |
| `Rfc3339.LeapSecondExamples` | lib/string-format-check.cpp:80-103 | leap seconds at the end of a UTC day, those of RFC 3339 section 5.8 among them, are valid and pass, others neither |
| `Rfc3339.TimesAccepted` | lib/string-format-check.cpp:57-104 | the accepted texts are exactly the printed accepted times, with any fraction; exactly the printed valid times when no sign is lost |
| `Rfc3339.TimeShapeIff` | lib/string-format-check.cpp:59 | the regular expression for times and the shape the captures are taken from are the same |
| `Rfc3339.DateTimeShapeIff` | lib/string-format-check.cpp:134 | and for dates with times |
| `Rfc3339.DateTimeCheck` | lib/string-format-check.cpp:132-143 | passes exactly the texts made of a valid date, "T" or "t", and an accepted time |
| `TaskPool.TaskPool.AddTask` | sched/task_pool.cpp:14-52 | the linked list and its counter: the task is last, or the pool was full and nothing changed |
| `TaskPool.TaskPool.PopTask` | sched/task_pool.cpp:54-71 | the oldest task comes out, or the pool was empty |
| `TaskPool.StepKeeps` | sched/task_pool.cpp:14-71 | first in, first out, and the bound, kept by each step of any producer or the consumer |
| `TaskPool.PoolBound` | sched/task_pool.cpp:18-25 | with the limit tested outside the lock by any number of producers P and one consumer, the pool never holds more than 20 + P - 1 tasks, and tasks leave in the order they came |
| `TaskPool.PoolBoundReached` | sched/task_pool.cpp:18-25 | a run that reaches that number exists for every P |
| `Scheduler.StepKeeps` | sched/task_scheduler.cpp:131-227 | every step of the scheduler or of a thread keeps counters, slots, jobs and tasks in order |
| `Scheduler.RunSafety` | sched/task_scheduler.cpp:131-227 | over every interleaving: a pop finds a task; `totalJobsInQueue` is never negative nor above 5; every accepted task is in exactly one of pool, hand, one busy slot, finished; `end_proc` at most once per job and `start_proc` never after an end or a failure; finished jobs have been ended; that jobs do get finished is in `Progress` |
| `Scheduler.ThreadKeepsQueue` | sched/task_scheduler.cpp:174-227 | a thread's steps keep the counter equal to the busy slots plus its own pending decrement minus the scheduler's pending increment |
| `Scheduler.PublishKeeps` | sched/task_scheduler.cpp:155-158 | marking a filled slot busy moves the task from the hand to the slot and owes the counter an increment |
| `Scheduler.LogCalls` | sched/task_scheduler.cpp:198-218 | the calls a job has received are in the right order whatever the thread does next |
| `Scheduler.InitiallyFine` | sched/task_scheduler.cpp:229-261 | the initial state satisfies all of it |
| `Scheduler.ThreadQueue.InsertFrom` | sched/task_scheduler.cpp:146-163 | the oldest task goes into the first free slot; with no free slot nothing changes |
| `Scheduler.InsertedBySteps` | sched/task_scheduler.cpp:153-160 | undisturbed, that is five steps of the interleaving model in a row |
| `Scheduler.GetTotalEmptySlots` | sched/task_scheduler.cpp:64-80 | the free slots of all queues |
| `Scheduler.GetQuickestQueue` | sched/task_scheduler.cpp:82-114 | for any number of threads up to MAX_THREAD: reads a slot out of bounds if and only if some queue with room has a number of QUEUE_SIZE or more; otherwise the first queue with room whose computed waiting time is least, queue 0 when none has room |
| `Scheduler.WaitExactly` | sched/task_scheduler.cpp:97-104 | the waiting time computed for a queue: by the priority of the job in the one slot looked at, as many times as there are threads |
| `Progress.ComesRound` | sched/task_scheduler.cpp:174-227 | by a measure that each of its own steps lowers, a thread comes to work on a busy slot within 25 of them, if every process it starts reports an end or a failure; one that does not keeps the thread (`CallKept`) |
| `Progress.SlotComesRound` | sched/task_scheduler.cpp:174-227 | so from every reachable state, unless the counter of the queue is about to be raised or the job has been ended already |
| `Progress.SlotReached` | sched/task_scheduler.cpp:146-227 | from every reachable state with a busy slot i whose job is not ended yet, a run of the pending steps of the scheduler and of that thread's own ones reaches the work on slot i, with the same job |
| `Progress.CallKept` | sched/task_scheduler.cpp:198-223 | a job that reports neither the end nor a failure is called again; one that does waits for the next round, while the thread goes on to the next slot, of four |
| `Progress.Drained` | sched/task_scheduler.cpp:174-227 | left to itself, a thread finishes all its jobs, and touches nothing else |
| `Progress.SchedulerDone` | sched/task_scheduler.cpp:146-163 | the scheduler can always end what it has begun |
| `Progress.EveryTaskFinished` | sched/task_scheduler.cpp:131-227 | however a run of one thread or more went, it can be continued, without new tasks, so that every task accepted so far is finished |
| `Progress.LooksEverywhere` | sched/task_scheduler.cpp:189-223 | a looking thread that finds every flag free has looked at each slot after four reads, and is back where it was |
| `Worker.StepKeeps` | worker_node/worker.cpp:74-207 | each operation keeps the order of both kinds of packets, their conservation and the bounds |
| `Worker.RunSafety` | worker_node/worker.cpp:74-207 | after every sequence of queueing, fetching, acknowledging and resending: each accepted packet in exactly one of sender queue, pending, acknowledged, plainly sent; at most 11 pending and 21 queued; first transmissions of either kind in queue order |
| `Worker.Conserved` | worker_node/worker.cpp:74-207 | accepted packets are the queued, pending, acknowledged and plainly sent ones together |
| `Worker.Undelivered` | worker_node/worker.cpp:166-183 | pending and queued packets are the accepted ones minus the delivered ones |
| `Transmissions.FetchTakesFirst` | worker_node/worker.cpp:102-132 | with nothing to be sent again, a fetch takes the first packet out of the queue that may be sent: any plain one, and one that wants an acknowledgement while at most ten are pending; it gives nothing exactly when there is none |
| `Transmissions.ResendAnswered` | worker_node/worker.cpp:92-97 | a fetch right after a pending packet was pushed to the front hands out that packet and changes nothing but the flag; the other pending packets keep their order |
| `Transmissions.ResendHandedOut` | worker_node/worker.cpp:92-97 | in the log of every run, a resend of a packet is answered with it by the next fetch, unless it was acknowledged or another packet pushed to the front in between |
| `Transmissions.EveryFetch` | worker_node/worker.cpp:87-133 | in every run, what a fetch hands out is told by the history: with a resend due the first pending packet, nothing moving; otherwise a packet never transmitted before, the first that may be sent, or nothing if none may |
| `Transmissions.AllDeliverable` | worker_node/worker.cpp:74-207 | however a run went, it can be continued by fetches and acknowledgements so that every accepted packet has been delivered |
| `Worker.Worker.QueuePacket` | worker_node/worker.cpp:74-85 | accepted at the end, or refused above 20 |
| `Worker.Worker.GetQueuedPacket` | worker_node/worker.cpp:87-133 | a packet to be sent again goes first, then the head of the queue, then the first plain packet when the window is full; the semaphore is posted once too often exactly when a resend is due and nothing is pending; over runs see `Transmissions.EveryFetch` |
| `Worker.Worker.PopPlain` | worker_node/worker.cpp:104-116 | the first packet that wants no acknowledgement leaves the queue from wherever it is |
| `Worker.Worker.MatchAckablePacket` | worker_node/worker.cpp:140-164 | the first pending packet with the id is acknowledged, if there is one |
| `Worker.Worker.PushToFront` | worker_node/worker.cpp:185-193 | a pending packet moves to the front, to be sent again |
| `Worker.Worker.ShutDown` | worker_node/worker.cpp:166-183 | hands back exactly the undelivered packets |
| `WorkerRegistry.WorkerRegistry.GenerateWorkerUid` | worker_node/worker_registry.cpp:9-49 | on any draws: it returns if and only if the first draw is new among live and dead, and then identifiers stay distinct |
| `WorkerRegistry.WorkerRegistry.DeleteWorker` | worker_node/worker_registry.cpp:51-63 | the identifier moves to the dead ones and identifiers stay distinct |
| `WorkerRegistry.WorkerRegistry.GetWorkerFromUid` | worker_node/worker_registry.cpp:77-90 | finds the one worker with the identifier, if there is one |
| `WorkerRegistry.WorkerRegistry.FindIdealWorker` | sender_unit/sender_core.cpp:78-144 | a ready worker with statistics that no other beats in points, then in `getQueueSize()`, the last among equals; none exactly when there is none; the search by identifier leads back to it |
| `WorkerRegistry.AverageTime` | sender_unit/sender_core.cpp:108-111 | the downward loop sums the queue times of this and the higher priorities |
| `WorkerRegistry.TimeOfTasks` | sender_unit/sender_core.cpp:108-111 | the queue time is the average time of a task, times the tasks of this and the higher priorities that wait |
| `WorkerRegistry.PointsCompared` | sender_unit/sender_core.cpp:108-114 | of two workers with threads the one has no more points exactly if its tasks take no longer per thread, compared without dividing |
| `WorkerRegistry.IdlePoints` | sender_unit/sender_core.cpp:114 | no points where no task takes time; without threads any other time is as bad as can be |
| `WorkerRegistry.FullestOfEquals` | worker_node/worker.cpp:135-138 | as half of the queue size is computed to 0, the tie goes to the worker with the most packets waiting |

## Left out

- Compiler.RootSchema.Make: a compilation that touches a keyword being compiled in place is answered `Entangled` and not followed further; see above. When a compilation succeeds is stated for the string keywords and for scalar kinds only: in general it depends on collisions among the URIs of all sub-schemas.
- Compiler.RootSchema.Make: which exception leaves a failing compilation is stated only as far as `MakeError` goes; the texts of exceptions and reports are kept as structure.
- Compiler.RootSchema.GetOrCreateRef: without a plan, answers `Entangled` where the program looks into a keyword being compiled; so do TurnIntoSchema, MakeInPlace and MakeTable when a reference inside them does.
- Compiler.RootSchema.TurnIntoSchema: see GetOrCreateRef.
- Compiler.RootSchema.MakeInPlace: see GetOrCreateRef.
- Compiler.RootSchema.MakeTable: see GetOrCreateRef.
- Compiler.RootSchema.ForgetKeyword: without a plan, answers `Entangled` where the program erases above or below a keyword being compiled.
- Compiler.RootSchema.KeepOrMake: without a plan, answers `Entangled` where the program writes over a keyword being compiled.
- Compiler.RootSchema.Keep: see KeepOrMake.
- Compiler.RootSchema.LoadRound: the files of a round are visited in any order, where the program takes them in the order of their locations.
- Compiler.RootSchema.SetRootSchema: a run is followed among a finite set of locations given beforehand, and answered `Outside` when it leaves them; every run that ends mentions finitely many. Without a plan it may be answered `Entangled`. The loader is a total function.
- InPlace.EndlessIff: one file, references by pointer, no `$id`; references that wait, and keywords left over and entered again under their URIs, are not followed. Number keywords are erased once, after the types, and a sub-schema that is gone when its turn comes counts as an exception, where the program holds a dangling reference.
- InPlaceSteps.AskAlike: compares the two models step by step, at lookups and erasures, and not over whole runs.
- Tidiness.RefersElsewhere: having no plan does not always mean that a run goes wrong; `ConstEmptied` is a family for which it does.
- Validator.Validate: a cycle of schemas that stays on one instance is excluded, anywhere in the graph. Following references alone around such a cycle never ends; a cycle through other keywords may overflow the stack or may not be entered.
- Validator.ValidateString: binary instances, and reading a binary value as a string.
- Percent.DecodeInPlace: takes fragments on which the loop ends; the others are characterised, not run.
- Automaton.IsAddress: the tables themselves are not transcribed; their shape is the hypothesis `WellFormed`.
- WorkerRegistry.WorkerRegistry.GenerateWorkerUid: draws are a finite list, and not returning is the result None.
- WorkerRegistry.WorkerRegistry.FindIdealWorker: doubles are real numbers, with quotients by zero threads as extremes.
- Regular expressions, formats, content checks and `multipleOf` are arbitrary functions that validation consults; integer bounds do not round in 64 bits, numbers are exact.
- Lifetimes: a reference has its target or has none; freed schemas are not modelled.
- The URI grammar, host names, UUIDs and the dispatch over format names: one-step tests.
- `replace` and `remove` of the patch, and the schema that checks patches: not used for defaults.
- Scheduler: CPU slices as time, the timer (which never asks a job to pause), stopping, and the reuse of job memory. The counters are taken as atomic; any number of threads may run. What a read out of bounds yields in `GetQuickestQueue` is not modelled.
- Worker: the timeout sweep, eviction and the migration of packets; a resend is an operation from outside, of a pending packet. In the branch for a full window the packet removed is taken to be the packet sent.
- Sinks, template tracking, status registry, sockets, SQL, files, logging.
