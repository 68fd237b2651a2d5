/** One row of the legacy ("old") small-file annotation format, converted
    field by field into the v2 fields while quality-control codes are
    collected. A client calls the setters in column order and then the
    final check once. */
module SmallFile {
  import opened Outcomes
  import opened JavaText
  import opened Ontology
  import opened Vocabulary
  import opened DescriptionMiner
  import opened ModifierIndex

  /** What the source keeps in static state, passed in explicitly: the
      ontology and the modifier index built from it once. */
  datatype Resources = Resources(ont: HpoOntology, modifier2TermId: map<string, TermId>)

  /** One of the two normalised sex codes. */
  predicate IsSexCode(s: string)
  {
    s == MaleCode || s == FemaleCode
  }

  /** A column value that is neither null nor empty. */
  predicate Given(s: Option<string>)
  {
    s.Some? && |s.value| > 0
  }

  /** A description adds to the modifier set only terms of the Clinical
      modifier subhierarchy, as the modifier index holds no others. */
  lemma MinedModifiersDescend(res: Resources, st: Mined, clauses: seq<string>)
    requires IsModifierIndex(res.ont, res.modifier2TermId)
    requires Mine(st, clauses, res.modifier2TermId).Ok?
    ensures forall id ::
      id in Mine(st, clauses, res.modifier2TermId).value.modifierset && id !in st.modifierset ==>
        Descends(res.ont, ClinicalModifierRoot, id)
  {
    var m := res.modifier2TermId;
    MineModifiers(st, clauses, m);
    forall id | id in Mine(st, clauses, m).value.modifierset && id !in st.modifierset
      ensures Descends(res.ont, ClinicalModifierRoot, id)
    {
      var a :| a in clauses && ModifierOf(Classify(a, m)) == Some(id);
      var key :| key in m && m[key] == id;
    }
  }

  class OldSmallFileEntry {
    const res: Resources

    var database: Option<DiseaseDatabase>
    var diseaseID: Option<string>
    var diseaseName: Option<string>
    // gene fields, dropped in v2
    var geneID: Option<string>
    var geneName: Option<string>
    var genotype: Option<string>
    var genesymbol: Option<string>
    var phenotypeId: Option<TermId>
    var phenotypeName: Option<string>
    var ageOfOnsetId: Option<TermId>
    var ageOfOnsetName: Option<string>
    var evidenceID: Option<string>
    var evidenceName: Option<string>
    var evidence: Option<string>
    var frequencyString: Option<string>
    var frequencyId: Option<FrequencyTerm>
    var sexID: Option<string>
    var sexName: Option<string>
    var sex: Option<string>
    var negationID: Option<string>
    var negationName: Option<string>
    var description: Option<string>
    var modifierset: set<TermId>
    var pub: Option<string>
    var assignedBy: Option<string>
    var dateCreated: Option<string>
    // entity-quality fields, dropped in v2
    var entityId: Option<string>
    var entityName: Option<string>
    var qualityId: Option<string>
    var qualityName: Option<string>
    var addlEntityName: Option<string>
    var addlEntityId: Option<string>
    var abnormalId: Option<string>
    var abnormalName: Option<string>
    var qcIssues: set<QcCode>

    /** The invariants every setter keeps, one group of fields at a time. */
    ghost predicate Valid()
      reads this
    {
      && res.ont.Valid()
      && IsModifierIndex(res.ont, res.modifier2TermId)
      && DiseaseCoherent()
      && TermsKnown()
      && FrequencyCoherent()
      && CodesNormalised()
    }

    /** The database is the one the disease id's prefix selects. */
    ghost predicate DiseaseCoherent()
      reads this`database, this`diseaseID
    {
      && (database.Some? <==> diseaseID.Some?)
      && (diseaseID.Some? ==> database == DatabaseOf(diseaseID.value))
    }

    /** The phenotype id is always a primary id of the ontology, and the
        onset id a term of it. */
    ghost predicate TermsKnown()
      reads this`phenotypeId, this`ageOfOnsetId
    {
      && (phenotypeId.Some? ==> IsPrimary(res.ont, phenotypeId.value))
      && (ageOfOnsetId.Some? ==> ageOfOnsetId.value in res.ont.termMap)
    }

    /** A frequency id never comes without a frequency text. */
    ghost predicate FrequencyCoherent()
      reads this`frequencyId, this`frequencyString
    {
      frequencyId.Some? ==> frequencyString.Some?
    }

    /** Sex and negation hold only normalised codes. No setter writes
        sexName or negationName: their setters write sexID and negationID. */
    ghost predicate CodesNormalised()
      reads this`sexID, this`sexName, this`sex, this`negationID, this`negationName
    {
      && (sexID.None? || IsSexCode(sexID.value))
      && (sex.None? || IsSexCode(sex.value))
      && (sexName.None? || IsSexCode(sexName.value))
      && (negationID.None? || negationID.value == NegationCode)
      && (negationName.None? || negationName.value == NegationCode)
    }

    /** The fields setDescription reads and writes. */
    ghost function MinerView(): Mined
      reads this`evidenceID, this`frequencyId, this`frequencyString, this`modifierset, this`qcIssues
    {
      Mined(evidenceID, frequencyId, frequencyString, modifierset, qcIssues, [])
    }

    constructor (res: Resources)
      requires res.ont.Valid() && IsModifierIndex(res.ont, res.modifier2TermId)
      ensures Valid() && this.res == res
      ensures database.None? && diseaseID.None? && diseaseName.None?
      ensures geneID.None? && geneName.None? && genotype.None? && genesymbol.None?
      ensures phenotypeId.None? && phenotypeName.None? && ageOfOnsetId.None? && ageOfOnsetName.None?
      ensures evidenceID.None? && evidenceName.None? && evidence.None?
      ensures frequencyId.None? && frequencyString.None?
      ensures sexID.None? && sexName.None? && sex.None? && negationID.None? && negationName.None?
      ensures description.None? && modifierset == {}
      ensures pub.None? && assignedBy.None? && dateCreated.None?
      ensures entityId.None? && entityName.None? && qualityId.None? && qualityName.None?
      ensures addlEntityName.None? && addlEntityId.None? && abnormalId.None? && abnormalName.None?
      ensures qcIssues == {}
    {
      this.res := res;
      database, diseaseID, diseaseName := None, None, None;
      geneID, geneName, genotype, genesymbol := None, None, None, None;
      phenotypeId, phenotypeName, ageOfOnsetId, ageOfOnsetName := None, None, None, None;
      evidenceID, evidenceName, evidence := None, None, None;
      frequencyString, frequencyId := None, None;
      sexID, sexName, sex, negationID, negationName := None, None, None, None, None;
      description, modifierset := None, {};
      pub, assignedBy, dateCreated := None, None, None;
      entityId, entityName, qualityId, qualityName := None, None, None, None;
      addlEntityName, addlEntityId, abnormalId, abnormalName := None, None, None, None;
      qcIssues := {};
    }

    /** addDiseaseId: the prefix picks the database; any other prefix stops
        the process. */
    method AddDiseaseId(id: string) returns (outcome: Outcome)
      requires DiseaseCoherent()
      modifies this`database, this`diseaseID
      ensures DiseaseCoherent()
      ensures outcome.Done? <==> DatabaseOf(id).Some?
      ensures outcome.Done? ==> database == DatabaseOf(id) && diseaseID == Some(id)
      ensures outcome.Failed? ==> outcome.failure == Exit(UnrecognizedDiseaseDatabase)
                                  && database == old(database) && diseaseID == old(diseaseID)
    {
      if StartsWith(id, "OMIM") {
        database := Some(Omim);
        diseaseID := Some(id);
      } else if StartsWith(id, "ORPHA") {
        database := Some(Orphanet);
        diseaseID := Some(id);
      } else if StartsWith(id, "DECIPHER") {
        database := Some(Decipher);
        diseaseID := Some(id);
      } else {
        return Failed(Exit(UnrecognizedDiseaseDatabase));
      }
      return Done;
    }

    /** addDiseaseName: stores the name; an empty name stops the process. */
    method AddDiseaseName(n: string) returns (outcome: Outcome)
      modifies this`diseaseName
      ensures diseaseName == Some(n)
      ensures outcome == if |n| < 1 then Failed(Exit(EmptyDiseaseName)) else Done
    {
      diseaseName := Some(n);
      if |n| < 1 {
        return Failed(Exit(EmptyDiseaseName));
      }
      return Done;
    }

    /** addGeneId: any non-null id, even an empty one, is recorded and flagged. */
    method AddGeneId(id: Option<string>)
      modifies this`geneID, this`qcIssues
      ensures id.None? ==> geneID == old(geneID) && qcIssues == old(qcIssues)
      ensures id.Some? ==> geneID == id && qcIssues == old(qcIssues) + {GotGeneData}
    {
      if id.None? {
        return;
      }
      qcIssues := qcIssues + {GotGeneData};
      geneID := id;
    }

    method SetGeneName(name: Option<string>)
      modifies this`geneName, this`qcIssues
      ensures !Given(name) ==> geneName == old(geneName) && qcIssues == old(qcIssues)
      ensures Given(name) ==> geneName == name && qcIssues == old(qcIssues) + {GotGeneData}
    {
      if name.None? || |name.value| == 0 {
        return;
      }
      qcIssues := qcIssues + {GotGeneData};
      geneName := name;
    }

    method SetGenotype(gt: Option<string>)
      modifies this`genotype, this`qcIssues
      ensures !Given(gt) ==> genotype == old(genotype) && qcIssues == old(qcIssues)
      ensures Given(gt) ==> genotype == gt && qcIssues == old(qcIssues) + {GotGeneData}
    {
      if gt.None? || |gt.value| == 0 {
        return;
      }
      qcIssues := qcIssues + {GotGeneData};
      genotype := gt;
    }

    method SetGenesymbol(gs: Option<string>)
      modifies this`genesymbol, this`qcIssues
      ensures !Given(gs) ==> genesymbol == old(genesymbol) && qcIssues == old(qcIssues)
      ensures Given(gs) ==> genesymbol == gs && qcIssues == old(qcIssues) + {GotGeneData}
    {
      if gs.None? || |gs.value| == 0 {
        return;
      }
      qcIssues := qcIssues + {GotGeneData};
      genesymbol := gs;
    }

    /** setPhenotypeId: the id must be an HP: id of the ontology; an
        alternate id is replaced by its primary id and flagged. */
    method SetPhenotypeId(id: string) returns (outcome: Outcome)
      requires res.ont.Valid() && TermsKnown()
      modifies this`phenotypeId, this`qcIssues
      ensures TermsKnown()
      ensures outcome.Done? <==> CreateHpoTermId(res.ont, id).Ok?
      ensures outcome.Failed? ==> outcome.failure == CreateHpoTermId(res.ont, id).failure
                                  && phenotypeId == old(phenotypeId) && qcIssues == old(qcIssues)
      ensures outcome.Done? ==>
        var given := CreateHpoTermId(res.ont, id).value;
        var primaryId := res.ont.termMap[given].id;
        && phenotypeId == Some(primaryId)
        && IsPrimary(res.ont, primaryId)
        && res.ont.termMap[primaryId] == res.ont.termMap[given]
        && qcIssues == old(qcIssues) + if given != primaryId then {UpdatingAltId} else {}
    {
      var created := CreateHpoTermId(res.ont, id);
      if created.Err? {
        return Failed(created.failure);
      }
      phenotypeId := Some(created.value);
      var primaryId := res.ont.termMap[created.value].id;
      if created.value != primaryId {
        phenotypeId := Some(primaryId);
        qcIssues := qcIssues + {UpdatingAltId};
      }
      return Done;
    }

    method SetPhenotypeName(name: Option<string>)
      modifies this`phenotypeName
      ensures phenotypeName == name
    {
      phenotypeName := name;
    }

    /** setAgeOfOnsetId: optional; a given id must start with HP:, be ten
        characters long and name a term of the ontology. Unlike the phenotype
        id, an alternate id is kept as given. */
    method SetAgeOfOnsetId(id: Option<string>) returns (outcome: Outcome)
      requires TermsKnown()
      modifies this`ageOfOnsetId
      ensures TermsKnown()
      ensures !Given(id) ==> outcome == Done && ageOfOnsetId == old(ageOfOnsetId)
      ensures Given(id) && !StartsWith(id.value, "HP:") ==> outcome == Failed(Exit(BadOnsetPrefix))
      ensures Given(id) && StartsWith(id.value, "HP:") && |id.value| != 10 ==> outcome == Failed(Exit(BadOnsetLength))
      ensures Given(id) && StartsWith(id.value, "HP:") && |id.value| == 10 ==>
        var created := CreateHpoTermId(res.ont, id.value);
        && outcome == (if created.Ok? then Done else Failed(created.failure))
        && (outcome.Done? ==> ageOfOnsetId == Some(created.value))
      ensures outcome.Failed? ==> ageOfOnsetId == old(ageOfOnsetId)
      ensures outcome.Done? && Given(id) ==>
        && ageOfOnsetId.Some? && ageOfOnsetId.value in res.ont.termMap
        && IdWithPrefix(ageOfOnsetId.value) == id.value
    {
      if id.None? || |id.value| == 0 {
        return Done;
      }
      if !StartsWith(id.value, "HP:") {
        return Failed(Exit(BadOnsetPrefix));
      }
      if |id.value| != 10 {
        return Failed(Exit(BadOnsetLength));
      }
      // isValidInheritanceTerm: throws exactly when createHpoTermIdFromString does
      var checked := CreateHpoTermId(res.ont, id.value);
      if checked.Err? {
        return Failed(checked.failure);
      }
      ageOfOnsetId := Some(checked.value);
      return Done;
    }

    method SetAgeOfOnsetName(name: Option<string>)
      modifies this`ageOfOnsetName
      ensures ageOfOnsetName == if Given(name) then name else old(ageOfOnsetName)
    {
      if name.None? || |name.value| == 0 {
        return;
      }
      ageOfOnsetName := name;
    }

    method SetEvidenceId(id: Option<string>)
      modifies this`evidenceID
      ensures evidenceID == id
    {
      evidenceID := id;
    }

    /** setEvidenceName: stores the name; the well-formedness test it runs
        has no effect. */
    method SetEvidenceName(name: Option<string>)
      modifies this`evidenceName
      ensures evidenceName == name
    {
      evidenceName := name;
    }

    method SetEvidence(e: Option<string>)
      modifies this`evidence
      ensures evidence == e
    {
      evidence := e;
    }

    /** hasQCissues: an updated date format alone is not an issue. */
    function HasQcIssues(): (r: bool)
      reads this
      ensures !r <==> qcIssues == {} || qcIssues == {UpdatedDateFormat}
      ensures r <==> exists c :: c in qcIssues && c != UpdatedDateFormat
    {
      if |qcIssues| == 0 then false
      else if |qcIssues| == 1 && UpdatedDateFormat in qcIssues then
        assert qcIssues - {UpdatedDateFormat} == {} by {
          assert |qcIssues - {UpdatedDateFormat}| == 0;
        }
        false
      else true
    }

    /** doQCcheck: flags a row none of whose three evidence fields holds an
        accepted code, and replaces a phenotype label that differs from the
        ontology's label. */
    method DoQcCheck() returns (issues: set<QcCode>)
      requires res.ont.Valid() && TermsKnown() && phenotypeId.Some? && phenotypeName.Some?
      modifies this`qcIssues, this`phenotypeName
      ensures issues == qcIssues
      ensures var hpoLabel := res.ont.termMap[phenotypeId.value].name;
        && phenotypeName == Some(hpoLabel)
        && qcIssues == old(qcIssues)
             + (if EvidenceCodeWellFormed(evidenceID) || EvidenceCodeWellFormed(evidenceName)
                   || EvidenceCodeWellFormed(evidence)
                then {} else {DidNotFindEvidenceCode})
             + (if old(phenotypeName) != Some(hpoLabel) then {UpdatingHpoLabel} else {})
    {
      var evidenceOK := false;
      if evidenceID.Some? {
        if EvidenceCodeWellFormed(evidenceID) { evidenceOK := true; }
      }
      if !evidenceOK && evidenceName.Some? {
        if EvidenceCodeWellFormed(evidenceName) { evidenceOK := true; }
      }
      if !evidenceOK && evidence.Some? {
        if EvidenceCodeWellFormed(evidence) { evidenceOK := true; }
      }
      if !evidenceOK {
        qcIssues := qcIssues + {DidNotFindEvidenceCode};
      }
      var hpoLabel := res.ont.termMap[phenotypeId.value].name;
      if phenotypeName.value != hpoLabel {
        qcIssues := qcIssues + {UpdatingHpoLabel};
        phenotypeName := Some(hpoLabel);
      }
      issues := qcIssues;
    }

    /** setFrequencyString: null or empty changes nothing; otherwise the
        trimmed value is stored and read through the frequency vocabulary. */
    method SetFrequencyString(freq: Option<string>) returns (outcome: Outcome)
      requires FrequencyCoherent()
      modifies this`frequencyString, this`frequencyId
      ensures FrequencyCoherent()
      ensures !Given(freq) ==> outcome == Done && frequencyString == old(frequencyString)
                               && frequencyId == old(frequencyId)
      ensures Given(freq) ==>
        var fs := Trim(freq.value);
        && frequencyString == Some(fs)
        && match ClassifyFrequency(fs)
           case Blank => outcome == Done && frequencyId == old(frequencyId)
           case TermGiven => outcome == Failed(Exit(FrequencyGivenAsTerm)) && frequencyId == old(frequencyId)
           case NumericRatio => outcome == Done && frequencyId == old(frequencyId)
           case Categorical(t) => outcome == Done && frequencyId == Some(t)
           case Unmapped => outcome == Failed(Exit(UnrecognizedFrequency)) && frequencyId == old(frequencyId)
    {
      if freq.None? || |freq.value| == 0 {
        return Done;
      }
      var fs := Trim(freq.value);
      frequencyString := Some(fs);
      var kind := ClassifyFrequency(fs);
      match kind
      case Blank =>
        return Done;
      case TermGiven =>
        return Failed(Exit(FrequencyGivenAsTerm));
      case NumericRatio =>
        return Done;
      case Categorical(t) =>
        frequencyId := Some(t);
        return Done;
      case Unmapped =>
        return Failed(Exit(UnrecognizedFrequency));
    }

    /** setSexID. */
    method SetSexID(id: Option<string>) returns (outcome: Outcome)
      requires CodesNormalised()
      modifies this`sexID
      ensures CodesNormalised()
      ensures !Given(id) ==> outcome == Done && sexID == old(sexID)
      ensures Given(id) ==>
        match SexCode(id.value)
        case Some(code) => outcome == Done && sexID == Some(code)
        case None => outcome == Failed(Thrown(UnrecognizedSexId)) && sexID == old(sexID)
    {
      if id.None? || |id.value| == 0 {
        return Done;
      }
      var code := SexCode(id.value);
      if code.None? {
        return Failed(Thrown(UnrecognizedSexId));
      }
      sexID := code;
      return Done;
    }

    /** setSexName: writes sexID, not sexName. */
    method SetSexName(name: Option<string>) returns (outcome: Outcome)
      requires CodesNormalised()
      modifies this`sexID
      ensures CodesNormalised()
      ensures !Given(name) ==> outcome == Done && sexID == old(sexID)
      ensures Given(name) ==>
        match SexCode(name.value)
        case Some(code) => outcome == Done && sexID == Some(code)
        case None => outcome == Failed(Thrown(UnrecognizedSexName)) && sexID == old(sexID)
    {
      if name.None? || |name.value| == 0 {
        return Done;
      }
      var code := SexCode(name.value);
      if code.None? {
        return Failed(Thrown(UnrecognizedSexName));
      }
      sexID := code;
      return Done;
    }

    /** setSex: only null is skipped, so an empty value is rejected. */
    method SetSex(s: Option<string>) returns (outcome: Outcome)
      requires CodesNormalised()
      modifies this`sex
      ensures CodesNormalised()
      ensures s.None? ==> outcome == Done && sex == old(sex)
      ensures s.Some? ==>
        match SexCode(s.value)
        case Some(code) => outcome == Done && sex == Some(code)
        case None => outcome == Failed(Thrown(UnrecognizedSexCode)) && sex == old(sex)
    {
      if s.None? {
        return Done;
      }
      var code := SexCode(s.value);
      if code.None? {
        return Failed(Thrown(UnrecognizedSexCode));
      }
      sex := code;
      return Done;
    }

    /** setNegationID. */
    method SetNegationID(id: Option<string>) returns (outcome: Outcome)
      requires CodesNormalised()
      modifies this`negationID
      ensures CodesNormalised()
      ensures !Given(id) ==> outcome == Done && negationID == old(negationID)
      ensures Given(id) && ToLower(id.value) == "not" ==> outcome == Done && negationID == Some(NegationCode)
      ensures Given(id) && ToLower(id.value) != "not" ==>
        outcome == Failed(Thrown(MalformedNegationId)) && negationID == old(negationID)
    {
      if id.None? || |id.value| == 0 {
        return Done;
      }
      assert ToLower(NegationCode) == "not";
      if EqualsIgnoreCase(id.value, NegationCode) {
        negationID := Some(NegationCode);
        return Done;
      }
      return Failed(Thrown(MalformedNegationId));
    }

    /** setNegationName: writes negationID, not negationName. */
    method SetNegationName(name: Option<string>) returns (outcome: Outcome)
      requires CodesNormalised()
      modifies this`negationID
      ensures CodesNormalised()
      ensures !Given(name) ==> outcome == Done && negationID == old(negationID)
      ensures Given(name) && ToLower(name.value) == "not" ==> outcome == Done && negationID == Some(NegationCode)
      ensures Given(name) && ToLower(name.value) != "not" ==>
        outcome == Failed(Thrown(MalformedNegationName)) && negationID == old(negationID)
    {
      if name.None? || |name.value| == 0 {
        return Done;
      }
      assert ToLower(NegationCode) == "not";
      if EqualsIgnoreCase(name.value, NegationCode) {
        negationID := Some(NegationCode);
        return Done;
      }
      return Failed(Thrown(MalformedNegationName));
    }

    /** getSex: sexID, else sexName, else sex. No setter writes sexName,
        so on a constructed entry the choice is between sexID and sex. */
    function GetSex(): (r: string)
      reads this
      requires CodesNormalised()
      ensures r == "" || IsSexCode(r)
      ensures sexID.Some? ==> r == sexID.value
      ensures sexID.None? && sexName.None? ==> r == if sex.Some? then sex.value else ""
    {
      if sexID.Some? then sexID.value
      else if sexName.Some? then sexName.value
      else if sex.Some? then sex.value
      else ""
    }

    /** getNegation: negationID, else negationName; "NOT" or nothing. */
    function GetNegation(): (r: string)
      reads this
      requires CodesNormalised()
      ensures r == "" || r == NegationCode
      ensures r == NegationCode <==> negationID.Some? || negationName.Some?
    {
      if negationID.Some? then negationID.value
      else if negationName.Some? then negationName.value
      else ""
    }

    /** setDescription: splits the text on ';' and mines each clause in
        order; the clauses kept are joined back with ';'. An unknown
        "MODIFIER:" clause stops the process. */
    method SetDescription(d: string) returns (outcome: Outcome)
      requires FrequencyCoherent() && IsModifierIndex(res.ont, res.modifier2TermId)
      modifies this`evidenceID, this`frequencyId, this`frequencyString, this`modifierset, this`qcIssues,
               this`description
      ensures FrequencyCoherent()
      ensures outcome.Done? ==> forall id :: id in modifierset && id !in old(modifierset) ==>
                                  Descends(res.ont, ClinicalModifierRoot, id)
      ensures var mined := Mine(old(MinerView()), JavaSplit(d, ';'), res.modifier2TermId);
        && (outcome.Done? <==> mined.Ok?)
        && (outcome.Failed? ==> outcome.failure == Exit(UnidentifiedModifier) && description == old(description))
        && (mined.Ok? ==> MinerView() == mined.value.(kept := [])
                          && description == Some(Join(mined.value.kept, ';')))
    {
      var clauses := JavaSplit(d, ';');
      ghost var start := MinerView();
      var ok, descriptionList := MineClauses(clauses);
      if !ok {
        return Failed(Exit(UnidentifiedModifier));
      }
      MinedModifiersDescend(res, start, clauses);
      description := Some(Join(descriptionList, ';'));
      return Done;
    }

    /** The loop of setDescription: mines the clauses in order and collects
        those kept, stopping at the first "MODIFIER:" clause naming no known
        modifier. */
    method MineClauses(clauses: seq<string>) returns (ok: bool, descriptionList: seq<string>)
      requires FrequencyCoherent()
      modifies this`evidenceID, this`frequencyId, this`frequencyString, this`modifierset, this`qcIssues
      ensures FrequencyCoherent()
      ensures var mined := Mine(old(MinerView()), clauses, res.modifier2TermId);
        && (ok <==> mined.Ok?)
        && (ok ==> MinerView() == mined.value.(kept := []) && descriptionList == mined.value.kept)
    {
      descriptionList := [];
      ghost var start := MinerView();
      ghost var modifiers := res.modifier2TermId;
      var i := 0;
      while i < |clauses|
        invariant 0 <= i <= |clauses|
        invariant FrequencyCoherent()
        invariant Mine(start, clauses[..i], modifiers) == Ok(MinerView().(kept := descriptionList))
      {
        var a := clauses[i];
        ghost var kept := descriptionList;
        ghost var view := MinerView();
        MineAdvance(start, clauses, i, modifiers, view, descriptionList);
        var keep;
        ok, keep := MineOne(a);
        if !ok {
          return;
        }
        ghost var next := MineClause(view, a, modifiers).value;
        if keep {
          descriptionList := descriptionList + [a];
        }
        assert MinerView() == next.(kept := []);
        assert keep == Retained(Classify(clauses[i], modifiers));
        assert descriptionList == kept + if Retained(Classify(clauses[i], modifiers)) then [clauses[i]] else [];
        assert Mine(start, clauses[..i + 1], modifiers) == Ok(next.(kept := descriptionList));
        assert MinerView().(kept := descriptionList) == next.(kept := descriptionList);
        i := i + 1;
      }
      assert clauses[..i] == clauses;
      ok := true;
    }

    /** The loop body of setDescription for one clause: the OMIM-CS test,
        then the chain of clause kinds. ok is false for a "MODIFIER:" clause
        naming no known modifier; keep says whether the clause stays in the
        description. */
    method MineOne(a: string) returns (ok: bool, keep: bool)
      requires FrequencyCoherent()
      modifies this`evidenceID, this`frequencyId, this`frequencyString, this`modifierset, this`qcIssues
      ensures FrequencyCoherent()
      ensures var r := MineClause(old(MinerView()), a, res.modifier2TermId);
        && (ok <==> r.Ok?)
        && (ok ==> MinerView() == r.value.(kept := []))
        && keep == Retained(Classify(a, res.modifier2TermId))
    {
      ok, keep := true, false;
      ghost var modifiers := res.modifier2TermId;
      if Contains(a, "OMIM-CS") {
        evidenceID := Some("TAS");
      }
      ghost var marked := MinerView();
      assert marked == var st := old(MinerView());
        if Contains(a, "OMIM-CS") then st.(evidenceID := Some("TAS")) else st;
      if StartsWith(a, "MODIFIER:") {
        var candidateModifier := ToLower(a[9..]);
        if Contains(candidateModifier, "recurrent") {
          assert Classify(a, modifiers) == RecurrentModifier;
          return;
        }
        if candidateModifier in res.modifier2TermId {
          assert Classify(a, modifiers) == NamedModifier(res.modifier2TermId[candidateModifier]);
          modifierset := modifierset + {res.modifier2TermId[candidateModifier]};
        } else {
          assert Classify(a, modifiers) == UnknownModifier;
          ok := false;
        }
      } else if Contains(a, "(RARE)") {
        assert Classify(a, modifiers) == RareHint;
        if frequencyId.None? && frequencyString.None? {
          frequencyId := Some(VeryRare);
          frequencyString := Some("Very rare");
        }
        assert MinerView() == DefaultFrequency(marked, (VeryRare, "Very rare"));
        keep := true;
      } else if Contains(a, "(IN SOME PATIENTS)") {
        assert Classify(a, modifiers) == SomePatientsHint;
        if frequencyId.None? && frequencyString.None? {
          frequencyId := Some(Occasional);
          frequencyString := Some("Occasional");
        }
        assert MinerView() == DefaultFrequency(marked, (Occasional, "Occasional"));
        keep := true;
      } else if ToLower(a) in res.modifier2TermId {
        assert Classify(a, modifiers) == BareModifier(res.modifier2TermId[ToLower(a)]);
        var tid := res.modifier2TermId[ToLower(a)];
        qcIssues := qcIssues + {CreatedModifier};
        modifierset := modifierset + {tid};
      } else {
        assert Classify(a, modifiers) == FreeText;
        keep := true;
      }
    }

    method SetPub(p: Option<string>)
      modifies this`pub
      ensures pub == p
    {
      pub := p;
    }

    method SetAssignedBy(ab: Option<string>)
      modifies this`assignedBy
      ensures assignedBy == ab
    {
      assignedBy := ab;
    }

    /** setDateCreated: stores the canonical form of the date and flags a
        date that was not already canonical. The conversion belongs to
        DateUtil, which is not part of this model; its result for dc is the
        parameter canonical. */
    method SetDateCreated(dc: string, canonical: string)
      modifies this`dateCreated, this`qcIssues
      ensures dateCreated == Some(canonical)
      ensures qcIssues == old(qcIssues) + if dc != canonical then {UpdatedDateFormat} else {}
    {
      dateCreated := Some(canonical);
      if dc != dateCreated.value {
        qcIssues := qcIssues + {UpdatedDateFormat};
      }
    }

    /** setAddlEntityName: stored, never flagged. */
    method SetAddlEntityName(n: Option<string>)
      modifies this`addlEntityName
      ensures addlEntityName == n
    {
      addlEntityName := n;
    }

    /** setAddlEntityId: stored, never flagged. */
    method SetAddlEntityId(id: Option<string>)
      modifies this`addlEntityId
      ensures addlEntityId == id
    {
      addlEntityId := id;
    }

    /** setEntityId: stored, never flagged. */
    method SetEntityId(id: Option<string>)
      modifies this`entityId
      ensures entityId == id
    {
      entityId := id;
    }

    method SetEntityName(name: Option<string>)
      modifies this`entityName, this`qcIssues
      ensures !Given(name) ==> entityName == old(entityName) && qcIssues == old(qcIssues)
      ensures Given(name) ==> entityName == name && qcIssues == old(qcIssues) + {GotEqItem}
    {
      if name.None? || |name.value| == 0 {
        return;
      }
      qcIssues := qcIssues + {GotEqItem};
      entityName := name;
    }

    method SetQualityId(id: Option<string>)
      modifies this`qualityId, this`qcIssues
      ensures !Given(id) ==> qualityId == old(qualityId) && qcIssues == old(qcIssues)
      ensures Given(id) ==> qualityId == id && qcIssues == old(qcIssues) + {GotEqItem}
    {
      if id.None? || |id.value| == 0 {
        return;
      }
      qcIssues := qcIssues + {GotEqItem};
      qualityId := id;
    }

    method SetQualityName(name: Option<string>)
      modifies this`qualityName, this`qcIssues
      ensures !Given(name) ==> qualityName == old(qualityName) && qcIssues == old(qcIssues)
      ensures Given(name) ==> qualityName == name && qcIssues == old(qcIssues) + {GotEqItem}
    {
      if name.None? || |name.value| == 0 {
        return;
      }
      qcIssues := qcIssues + {GotEqItem};
      qualityName := name;
    }

    method SetAbnormalId(id: Option<string>)
      modifies this`abnormalId, this`qcIssues
      ensures !Given(id) ==> abnormalId == old(abnormalId) && qcIssues == old(qcIssues)
      ensures Given(id) ==> abnormalId == id && qcIssues == old(qcIssues) + {GotEqItem}
    {
      if id.None? || |id.value| == 0 {
        return;
      }
      qcIssues := qcIssues + {GotEqItem};
      abnormalId := id;
    }

    method SetAbnormalName(name: Option<string>)
      modifies this`abnormalName, this`qcIssues
      ensures !Given(name) ==> abnormalName == old(abnormalName) && qcIssues == old(qcIssues)
      ensures Given(name) ==> abnormalName == name && qcIssues == old(qcIssues) + {GotEqItem}
    {
      if name.None? || |name.value| == 0 {
        return;
      }
      qcIssues := qcIssues + {GotEqItem};
      abnormalName := name;
    }
  }

  /** The final check is idempotent: a second run raises nothing new. */
  method QcCheckIsIdempotent(e: OldSmallFileEntry) returns (first: set<QcCode>, second: set<QcCode>)
    requires e.res.ont.Valid() && e.TermsKnown() && e.phenotypeId.Some? && e.phenotypeName.Some?
    modifies e`qcIssues, e`phenotypeName
    ensures second == first && e.qcIssues == first
  {
    first := e.DoQcCheck();
    second := e.DoQcCheck();
  }
}
