# OldSmallFileEntry in Dafny

HPO Workbench converts the legacy ("old") disease–phenotype small files into
the v2 format. Each row of an old file becomes an `OldSmallFileEntry`: a client
calls one setter per column, in column order, and then calls the final quality
check once. Each setter validates or normalises its column. Along the way the
entry collects quality-control codes, which record every silent repair made to
the row.

This project models that class and the static state it depends on:

- `outcomes.dfy` (module `Outcomes`): `Option`, `Result` and `Outcome`.
  - A call that ends the process with status 1 is `Failed(Exit(cause))`.
  - A call that throws `HPOException` is `Failed(Thrown(cause))`.
- `java_text.dfy` (module `JavaText`): the Java `String` operations the class uses.
  - Case-insensitive comparison, prefix and substring tests.
  - `trim`, which removes characters up to and including the space.
  - `split(";")`, which drops trailing empty pieces, and `Collectors.joining(";")`.
- `ontology.dfy` (module `Ontology`): the HPO ontology.
  - A term map from an id (primary or alternate) to its term, which carries the primary id and the label.
  - A child relation.
  - Reachability along child edges, and the weight that makes the stack walk terminate.
- `modifier_index.dfy` (module `ModifierIndex`): the static modifier index, built once.
  - It walks down from HP:0012823 with a stack.
  - It maps each label, lower-cased, to its term id.
- `vocabulary.dfy` (module `Vocabulary`): the fixed vocabularies.
  - Disease database prefixes, and HP id parsing.
  - The frequency words, sex codes and evidence codes.
  - The quality-control codes.
- `description_miner.dfy` (module `DescriptionMiner`): the clause-by-clause reading of the description column.
  - It is a fold over the `;`-separated clauses.
  - Lemmas give its result in closed form.
- `small_file_entry.dfy` (module `SmallFile`): the class `OldSmallFileEntry`.
  - Fields are updated in place by setters with field-level `modifies` frames.
  - An invariant `Valid` holds from construction. It fixes the resources (a valid ontology and its modifier index) and adds four parts over the entry's fields, each kept by the setters that write those fields.

The static ontology and modifier map of the class are an explicit `Resources`
value, fixed when an entry is constructed. Acyclicity of the child relation,
which the walk needs because it keeps no visited set, is a ghost `rank` that
strictly decreases along child edges.

Where the code departs from what the class Javadoc (OldSmallFileEntry.java, lines 23-43) and
the method comments suggest, the model follows the code:

- Only the age-of-onset id is checked for a length of ten characters. The phenotype id is not.
- Only the phenotype id is replaced by its primary id. An alternate onset id is stored as given.
- The evidence fields are stored as given. `doQCcheck` only flags a row none of whose evidence fields holds a code; it never picks one.
- The `OMIM-CS` test in `setDescription` stands apart from the clause chain. It sets the evidence to `TAS`, and the clause then takes its branch of the chain as usual.
- `addGeneId` flags any non-null id, even the empty one.
- `setEntityId`, `setAddlEntityName` and `setAddlEntityId` never flag.
- `setSexName` and `setNegationName` write `sexID` and `negationID`, so `sexName` and `negationName` are never written.
- An unknown `MODIFIER:` clause ends the process. It is not an exception.
- When two modifier labels collide, the map keeps whichever term comes last in HashSet order. The model leaves the choice open.

## Model

| member | source | states |
|---|---|---|
| JavaText.ToLowerIsLowerCase | hpowbcore/src/main/java/org/monarchinitiative/hpoworkbench/smallfile/OldSmallFileEntry.java:444 | a lower-cased text holds no upper-case letter and lower-casing it again changes nothing |
| JavaText.Trim | hpowbcore/src/main/java/org/monarchinitiative/hpoworkbench/smallfile/OldSmallFileEntry.java:357-358 | the result is empty exactly when every character is at or below U+0020 (the space or an ASCII control character other than DEL); otherwise neither end is; a string whose ends are both above U+0020 is returned unchanged |
| JavaText.Join | hpowbcore/src/main/java/org/monarchinitiative/hpoworkbench/smallfile/OldSmallFileEntry.java:476 | joining no pieces gives the empty text and one piece gives that piece; the first piece comes first; with separator-free pieces the separator occurs exactly when there are two or more |
| JavaText.SplitAllJoin | hpowbcore/src/main/java/org/monarchinitiative/hpoworkbench/smallfile/OldSmallFileEntry.java:476 | splitting a join of separator-free pieces gives back the pieces in order |
| JavaText.JavaSplit | hpowbcore/src/main/java/org/monarchinitiative/hpoworkbench/smallfile/OldSmallFileEntry.java:438 | no piece contains the separator |
| JavaText.SplitAll | hpowbcore/src/main/java/org/monarchinitiative/hpoworkbench/smallfile/OldSmallFileEntry.java:438 | at least one piece, none containing the separator |
| JavaText.DropTrailingEmpty | hpowbcore/src/main/java/org/monarchinitiative/hpoworkbench/smallfile/OldSmallFileEntry.java:438 | a prefix of the pieces that does not end in an empty piece, and everything dropped is empty |
| JavaText.JoinSplitAll | hpowbcore/src/main/java/org/monarchinitiative/hpoworkbench/smallfile/OldSmallFileEntry.java:438 | joining all pieces of a split restores the text |
| JavaText.SplitJoinRoundTrip | hpowbcore/src/main/java/org/monarchinitiative/hpoworkbench/smallfile/OldSmallFileEntry.java:438 | a description that does not end in ';' is restored by joining its split |
| Ontology.DescendantIsKnown | hpowbcore/src/main/java/org/monarchinitiative/hpoworkbench/smallfile/OldSmallFileEntry.java:166-167 | in a valid ontology every term reachable from a known root is in the term map, so the label lookup of the walk always succeeds |
| ModifierIndex.PushAll | hpowbcore/src/main/java/org/monarchinitiative/hpoworkbench/smallfile/OldSmallFileEntry.java:163-164 | the stack below is left as it was and above it each child of the popped term is pushed exactly once, and nothing else; the walk's termination measure grows by their unfolding |
| ModifierIndex.CollectDescendants | hpowbcore/src/main/java/org/monarchinitiative/hpoworkbench/smallfile/OldSmallFileEntry.java:155-165 | the stack walk collects exactly the terms reachable from the root by child edges, the root included |
| ModifierIndex.FindModifierTerms | hpowbcore/src/main/java/org/monarchinitiative/hpoworkbench/smallfile/OldSmallFileEntry.java:155-181 | the result is a modifier index (`IsModifierIndex`): every value is HP:0012823 or below it and its key is its lower-cased label; every term below HP:0012823 has its lower-cased label as a key |
| Vocabulary.DatabaseOf | hpowbcore/src/main/java/org/monarchinitiative/hpoworkbench/smallfile/OldSmallFileEntry.java:184-198 | OMIM, ORPHANET or DECIPHER exactly when the id starts with "OMIM", "ORPHA" or "DECIPHER"; otherwise none |
| Vocabulary.CreateHpoTermId | hpowbcore/src/main/java/org/monarchinitiative/hpoworkbench/smallfile/OldSmallFileEntry.java:278-294 | accepted exactly when some HP term of the map prints as the id, and then it is that term; a missing HP: prefix is the prefix exception; every failure is an exception |
| Vocabulary.PrimaryIdIsStable | hpowbcore/src/main/java/org/monarchinitiative/hpoworkbench/smallfile/OldSmallFileEntry.java:234-241 | when the primary id of an accepted id has the HP prefix, that primary id is itself accepted and is its own primary id |
| Vocabulary.ClassifyFrequency | hpowbcore/src/main/java/org/monarchinitiative/hpoworkbench/smallfile/OldSmallFileEntry.java:358-388 | an empty value is blank, a value starting with HP: is a term id and is rejected, a digit-led value is a ratio; the reading of the ten words is stated by ClassifyFollowsVocabulary |
| Vocabulary.ClassifyFollowsVocabulary | hpowbcore/src/main/java/org/monarchinitiative/hpoworkbench/smallfile/OldSmallFileEntry.java:364-388 | for every input, the else-if chain gives the same reading as looking the lower-cased word up in the ten-word table `FrequencyVocabulary`: a listed word gets its term, and any other word that is not blank, not an HP: id and not digit-led is rejected |
| Vocabulary.SexCode | hpowbcore/src/main/java/org/monarchinitiative/hpoworkbench/smallfile/OldSmallFileEntry.java:392-399 | "Male" or "Female" exactly when the value is "male" or "female" up to case; nothing otherwise |
| Vocabulary.EvidenceCodeWellFormed | hpowbcore/src/main/java/org/monarchinitiative/hpoworkbench/smallfile/OldSmallFileEntry.java:296-304 | true exactly when the value is present and is one of IEA, PCS, TAS, ICE |
| DescriptionMiner.Classify | hpowbcore/src/main/java/org/monarchinitiative/hpoworkbench/smallfile/OldSmallFileEntry.java:443-473 | a clause takes one of the three MODIFIER: branches exactly when it starts with "MODIFIER:"; a modifier it names is a value of the modifier index; free text is not, lower-cased, a key of the index |
| DescriptionMiner.MineClause | hpowbcore/src/main/java/org/monarchinitiative/hpoworkbench/smallfile/OldSmallFileEntry.java:440-473 | one pass of the loop fails exactly for an unknown modifier, with the exit at 453; otherwise the modifier and code sets only grow and the clause is appended to the kept clauses exactly when it is retained |
| DescriptionMiner.Mine | hpowbcore/src/main/java/org/monarchinitiative/hpoworkbench/smallfile/OldSmallFileEntry.java:439-474 | the loop fails only with the exit at 453; otherwise the modifier and code sets only grow and the clauses kept before stay at the front |
| DescriptionMiner.MineClauseAppends | hpowbcore/src/main/java/org/monarchinitiative/hpoworkbench/smallfile/OldSmallFileEntry.java:439-473 | a clause fails exactly when it is an unknown modifier, whatever came before, and it only appends itself to the kept clauses |
| DescriptionMiner.MineFailsOnUnknownModifier | hpowbcore/src/main/java/org/monarchinitiative/hpoworkbench/smallfile/OldSmallFileEntry.java:443-454 | mining fails exactly when some clause is a "MODIFIER:" clause naming neither recurrence nor a known modifier, and the failure is the exit |
| DescriptionMiner.MineKeeps | hpowbcore/src/main/java/org/monarchinitiative/hpoworkbench/smallfile/OldSmallFileEntry.java:436-476 | the kept clauses are the earlier ones followed by the retained clauses, in their original order |
| DescriptionMiner.KeptClauses | hpowbcore/src/main/java/org/monarchinitiative/hpoworkbench/smallfile/OldSmallFileEntry.java:443-473 | a clause is kept exactly when it is a (RARE), (IN SOME PATIENTS) or free-text clause; no kept clause starts with "MODIFIER:" or names a modifier |
| DescriptionMiner.MineModifiers | hpowbcore/src/main/java/org/monarchinitiative/hpoworkbench/smallfile/OldSmallFileEntry.java:449-470 | the modifier set grows by exactly the ids named by "MODIFIER:" clauses and by bare modifier labels |
| DescriptionMiner.MineEvidence | hpowbcore/src/main/java/org/monarchinitiative/hpoworkbench/smallfile/OldSmallFileEntry.java:440-442 | the evidence becomes TAS exactly when some clause contains OMIM-CS, and is otherwise unchanged |
| DescriptionMiner.MineQcIssues | hpowbcore/src/main/java/org/monarchinitiative/hpoworkbench/smallfile/OldSmallFileEntry.java:467-470 | the only code raised is CREATED_MODIFER, exactly when some clause is a bare modifier label |
| DescriptionMiner.FirstHintAppend | hpowbcore/src/main/java/org/monarchinitiative/hpoworkbench/smallfile/OldSmallFileEntry.java:455-466 | the first frequency hint of a longer list is the first hint of its prefix, if any, else that of the new clause |
| DescriptionMiner.MineFrequency | hpowbcore/src/main/java/org/monarchinitiative/hpoworkbench/smallfile/OldSmallFileEntry.java:455-466 | a frequency id or text already set (even an empty text) is never overwritten; otherwise both are set from the first (RARE) or (IN SOME PATIENTS) clause, or both stay unset |
| SmallFile.OldSmallFileEntry.constructor | hpowbcore/src/main/java/org/monarchinitiative/hpoworkbench/smallfile/OldSmallFileEntry.java:139-141 | a new entry has every field unset, an empty modifier set and no quality-control codes, and satisfies `Valid`; its resources must hold a valid ontology and the modifier index built from it, as `setOntology` (143-148) builds it |
| SmallFile.OldSmallFileEntry.AddDiseaseId | hpowbcore/src/main/java/org/monarchinitiative/hpoworkbench/smallfile/OldSmallFileEntry.java:184-198 | on a known prefix the database and the id are set; on any other prefix the process exits and nothing changes |
| SmallFile.OldSmallFileEntry.AddDiseaseName | hpowbcore/src/main/java/org/monarchinitiative/hpoworkbench/smallfile/OldSmallFileEntry.java:200-206 | the name is stored; an empty name then ends the process |
| SmallFile.OldSmallFileEntry.AddGeneId | hpowbcore/src/main/java/org/monarchinitiative/hpoworkbench/smallfile/OldSmallFileEntry.java:209-214 | any non-null id, even "", is stored and raises GOT_GENE_DATA |
| SmallFile.OldSmallFileEntry.SetGeneName | hpowbcore/src/main/java/org/monarchinitiative/hpoworkbench/smallfile/OldSmallFileEntry.java:216-220 | a non-empty name is stored and raises GOT_GENE_DATA; otherwise nothing changes |
| SmallFile.OldSmallFileEntry.SetGenotype | hpowbcore/src/main/java/org/monarchinitiative/hpoworkbench/smallfile/OldSmallFileEntry.java:222-226 | a non-empty genotype is stored and raises GOT_GENE_DATA; otherwise nothing changes |
| SmallFile.OldSmallFileEntry.SetGenesymbol | hpowbcore/src/main/java/org/monarchinitiative/hpoworkbench/smallfile/OldSmallFileEntry.java:228-232 | a non-empty symbol is stored and raises GOT_GENE_DATA; otherwise nothing changes |
| SmallFile.OldSmallFileEntry.SetPhenotypeId | hpowbcore/src/main/java/org/monarchinitiative/hpoworkbench/smallfile/OldSmallFileEntry.java:234-241 | an accepted id is replaced by its primary id, which is stored and names the same term; UPDATING_ALT_ID is raised exactly when the two differ; a rejected id throws and changes nothing |
| SmallFile.OldSmallFileEntry.SetPhenotypeName | hpowbcore/src/main/java/org/monarchinitiative/hpoworkbench/smallfile/OldSmallFileEntry.java:243-245 | the name is stored as given |
| SmallFile.OldSmallFileEntry.SetAgeOfOnsetId | hpowbcore/src/main/java/org/monarchinitiative/hpoworkbench/smallfile/OldSmallFileEntry.java:247-264 | an absent id changes nothing; no HP: prefix or a length other than 10 ends the process; otherwise the outcome is CreateHpoTermId's: an id not in the ontology throws, and an accepted id is stored as the term id CreateHpoTermId gives, alternate ids included |
| SmallFile.OldSmallFileEntry.SetAgeOfOnsetName | hpowbcore/src/main/java/org/monarchinitiative/hpoworkbench/smallfile/OldSmallFileEntry.java:266-269 | a non-empty name is stored; otherwise nothing changes |
| SmallFile.OldSmallFileEntry.SetEvidenceId | hpowbcore/src/main/java/org/monarchinitiative/hpoworkbench/smallfile/OldSmallFileEntry.java:306-309 | the id is stored as given |
| SmallFile.OldSmallFileEntry.SetEvidenceName | hpowbcore/src/main/java/org/monarchinitiative/hpoworkbench/smallfile/OldSmallFileEntry.java:311-314 | the name is stored as given; its check has no effect |
| SmallFile.OldSmallFileEntry.SetEvidence | hpowbcore/src/main/java/org/monarchinitiative/hpoworkbench/smallfile/OldSmallFileEntry.java:526-528 | the evidence is stored as given |
| SmallFile.OldSmallFileEntry.HasQcIssues | hpowbcore/src/main/java/org/monarchinitiative/hpoworkbench/smallfile/OldSmallFileEntry.java:316-320 | false exactly when the code set is empty or is {UPDATED_DATE_FORMAT}; true exactly when some other code is present |
| SmallFile.OldSmallFileEntry.DoQcCheck | hpowbcore/src/main/java/org/monarchinitiative/hpoworkbench/smallfile/OldSmallFileEntry.java:326-349 | DID_NOT_FIND_EVIDENCE_CODE is raised exactly when none of the three evidence fields holds an accepted code; the label becomes the ontology's, and UPDATING_HPO_LABEL is raised exactly when it differed; the codes are returned |
| SmallFile.QcCheckIsIdempotent | hpowbcore/src/main/java/org/monarchinitiative/hpoworkbench/smallfile/OldSmallFileEntry.java:326-349 | a second check returns the same codes as the first |
| SmallFile.OldSmallFileEntry.SetFrequencyString | hpowbcore/src/main/java/org/monarchinitiative/hpoworkbench/smallfile/OldSmallFileEntry.java:355-389 | absent or empty input changes nothing; otherwise the trimmed text is stored; blank or digit-led text sets no id; a vocabulary word sets its term; an HP: id or any other word ends the process |
| SmallFile.OldSmallFileEntry.SetSexID | hpowbcore/src/main/java/org/monarchinitiative/hpoworkbench/smallfile/OldSmallFileEntry.java:392-400 | absent or empty changes nothing; male or female in any case stores the normalised code; anything else throws and changes nothing |
| SmallFile.OldSmallFileEntry.SetSexName | hpowbcore/src/main/java/org/monarchinitiative/hpoworkbench/smallfile/OldSmallFileEntry.java:402-410 | as SetSexID, writing sexID |
| SmallFile.OldSmallFileEntry.SetSex | hpowbcore/src/main/java/org/monarchinitiative/hpoworkbench/smallfile/OldSmallFileEntry.java:542-547 | only an absent value changes nothing; "" or an unknown value throws; male or female stores the code |
| SmallFile.OldSmallFileEntry.SetNegationID | hpowbcore/src/main/java/org/monarchinitiative/hpoworkbench/smallfile/OldSmallFileEntry.java:412-417 | absent or empty changes nothing; "not" in any case stores "NOT"; anything else throws and changes nothing |
| SmallFile.OldSmallFileEntry.SetNegationName | hpowbcore/src/main/java/org/monarchinitiative/hpoworkbench/smallfile/OldSmallFileEntry.java:419-424 | as SetNegationID, writing negationID |
| SmallFile.OldSmallFileEntry.GetSex | hpowbcore/src/main/java/org/monarchinitiative/hpoworkbench/smallfile/OldSmallFileEntry.java:599-604 | "", "Male" or "Female"; sexID when set, and sex when neither sexID nor sexName is set; sexName is unset from construction on, as no setter writes it |
| SmallFile.OldSmallFileEntry.GetNegation | hpowbcore/src/main/java/org/monarchinitiative/hpoworkbench/smallfile/OldSmallFileEntry.java:606-610 | "" or "NOT", and "NOT" exactly when a negation was set |
| SmallFile.MinedModifiersDescend | hpowbcore/src/main/java/org/monarchinitiative/hpoworkbench/smallfile/OldSmallFileEntry.java:443-470 | with a modifier index built from the ontology, every term the clauses add to the modifier set is HP:0012823 or below it |
| SmallFile.OldSmallFileEntry.SetDescription | hpowbcore/src/main/java/org/monarchinitiative/hpoworkbench/smallfile/OldSmallFileEntry.java:435-477 | succeeds exactly when mining the split clauses succeeds; then the mined fields are the new fields and the description is the kept clauses joined by ';'; on failure the process exits with the description untouched; every modifier added is HP:0012823 or below it |
| SmallFile.OldSmallFileEntry.MineClauses | hpowbcore/src/main/java/org/monarchinitiative/hpoworkbench/smallfile/OldSmallFileEntry.java:436-474 | the loop over the clauses succeeds exactly when mining them in order succeeds; then the fields are the mined ones and the list collected is exactly the clauses the miner keeps |
| SmallFile.OldSmallFileEntry.MineOne | hpowbcore/src/main/java/org/monarchinitiative/hpoworkbench/smallfile/OldSmallFileEntry.java:440-473 | one clause changes the fields as the clause miner says, fails exactly when the miner fails, and is kept exactly when the miner retains it |
| SmallFile.OldSmallFileEntry.SetPub | hpowbcore/src/main/java/org/monarchinitiative/hpoworkbench/smallfile/OldSmallFileEntry.java:480-482 | the publication is stored as given |
| SmallFile.OldSmallFileEntry.SetAssignedBy | hpowbcore/src/main/java/org/monarchinitiative/hpoworkbench/smallfile/OldSmallFileEntry.java:484-486 | the curator is stored as given |
| SmallFile.OldSmallFileEntry.SetDateCreated | hpowbcore/src/main/java/org/monarchinitiative/hpoworkbench/smallfile/OldSmallFileEntry.java:488-494 | the canonical date is stored; UPDATED_DATE_FORMAT is raised exactly when it differs from the input |
| SmallFile.OldSmallFileEntry.SetAddlEntityName | hpowbcore/src/main/java/org/monarchinitiative/hpoworkbench/smallfile/OldSmallFileEntry.java:496-498 | stored as given, no code raised |
| SmallFile.OldSmallFileEntry.SetAddlEntityId | hpowbcore/src/main/java/org/monarchinitiative/hpoworkbench/smallfile/OldSmallFileEntry.java:500-502 | stored as given, no code raised |
| SmallFile.OldSmallFileEntry.SetEntityId | hpowbcore/src/main/java/org/monarchinitiative/hpoworkbench/smallfile/OldSmallFileEntry.java:504-506 | stored as given, no code raised |
| SmallFile.OldSmallFileEntry.SetEntityName | hpowbcore/src/main/java/org/monarchinitiative/hpoworkbench/smallfile/OldSmallFileEntry.java:508-512 | a non-empty name is stored and raises GOT_EQ_ITEM; otherwise nothing changes |
| SmallFile.OldSmallFileEntry.SetQualityId | hpowbcore/src/main/java/org/monarchinitiative/hpoworkbench/smallfile/OldSmallFileEntry.java:514-518 | a non-empty id is stored and raises GOT_EQ_ITEM; otherwise nothing changes |
| SmallFile.OldSmallFileEntry.SetQualityName | hpowbcore/src/main/java/org/monarchinitiative/hpoworkbench/smallfile/OldSmallFileEntry.java:520-524 | a non-empty name is stored and raises GOT_EQ_ITEM; otherwise nothing changes |
| SmallFile.OldSmallFileEntry.SetAbnormalId | hpowbcore/src/main/java/org/monarchinitiative/hpoworkbench/smallfile/OldSmallFileEntry.java:530-534 | a non-empty id is stored and raises GOT_EQ_ITEM; otherwise nothing changes |
| SmallFile.OldSmallFileEntry.SetAbnormalName | hpowbcore/src/main/java/org/monarchinitiative/hpoworkbench/smallfile/OldSmallFileEntry.java:536-540 | a non-empty name is stored and raises GOT_EQ_ITEM; otherwise nothing changes |

The constructor establishes `Valid`, the conjunction of six parts:

- `res.ont.Valid()`: the ontology is valid.
- `IsModifierIndex`: the modifier index is one `FindModifierTerms` may build from that ontology. SetDescription relies on it.

These two are about the resources, which never change after construction. The other four are about the entry's fields:

- `DiseaseCoherent`: the database is the one the disease id's prefix selects. AddDiseaseId keeps it.
- `TermsKnown`: the phenotype id is a primary id and the onset id a known term. SetPhenotypeId and SetAgeOfOnsetId keep it.
- `FrequencyCoherent`: a frequency id always has a frequency text. SetFrequencyString and SetDescription keep it.
- `CodesNormalised`: sex and negation hold only normalised codes. The sex and negation setters keep it.

Each part reads only its own fields. A setter that writes none of them leaves every part unchanged through its `modifies` frame.

## Left out

- Logging is not modelled.
- The process exit is an error outcome. The state an entry is left in after an exit is specified only where it is cheap to state; the process ends there anyway.
- `DateUtil.convertToCanonicalDateFormat` is not part of this model. SetDateCreated takes its result as a second parameter.
- The ontolib graph and its edge iterators are replaced by a finite child map, `HpoOntology.Children`.
- `setOntology` is replaced by passing `Resources` to the constructor. The inheritance and abnormal-phenotype sub-ontologies it also stores are never read by the class, so they are omitted.
- The label lookup in `findModifierTerms` would fail with a null pointer for a term missing from the map. FindModifierTerms requires a valid ontology in which HP:0012823 is a known term, so this cannot happen.
- The HpoFrequency library ids are opaque enum values. EXCLUDED is never assigned, so it is omitted.
- `getModifierString` follows HashSet iteration order, which is not modelled.
- The plain getters and the unused `othologs` field are omitted.
- A null description, a null disease id or name, a null phenotype id or a null creation date makes the source throw `NullPointerException` (addDiseaseName at 202, setDateCreated at 491). Those parameters are typed as non-null strings.
- DoQcCheck requires the phenotype id and name to be set. With either null the source throws `NullPointerException` at 342, after it may already have added DID_NOT_FIND_EVIDENCE_CODE at 340; that partial update is not modelled.
- Case folding, `trim` and `Character.isDigit` cover ASCII only. Unicode case mapping and non-ASCII digits are not modelled.
- Strings are sequences of Unicode scalar values, while Java's `length()` counts UTF-16 units. The ten-character test of SetAgeOfOnsetId (line 255) therefore differs for an id holding a supplementary character: "HP:00000" followed by one emoji has Java length 10 and reaches the ontology lookup, while the model counts 9 and exits with BadOnsetLength. Lone surrogates, which Java strings may hold, cannot be represented.
- DoQcCheck returns a copy of the code set. The source returns the live HashSet, so later changes through that reference are not modelled.
- FindModifierTerms: when two terms share a lower-cased label, the source keeps whichever comes last in HashSet order. The model proves only that some term with that label is kept.
