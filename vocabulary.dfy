/** The fixed vocabularies of the legacy small-file columns: disease
    databases, HPO term ids, frequency words, sex and negation codes,
    evidence codes, and the quality-control codes a conversion raises. */
module Vocabulary {
  import opened Outcomes
  import opened JavaText
  import opened Ontology

  /** Quality-control codes (SmallFileQCCode). CreatedModifier is spelled
      CREATED_MODIFER in the source. */
  datatype QcCode =
    | UpdatingAltId
    | UpdatedDateFormat
    | GotGeneData
    | GotEqItem
    | CreatedModifier
    | DidNotFindEvidenceCode
    | UpdatingHpoLabel

  datatype DiseaseDatabase = Omim | Orphanet | Decipher

  /** The id prefix that selects each database. */
  function DatabasePrefix(db: DiseaseDatabase): string
  {
    match db
    case Omim => "OMIM"
    case Orphanet => "ORPHA"
    case Decipher => "DECIPHER"
  }

  /** The database addDiseaseId picks from the prefix of a disease id; None
      when the prefix is none of the three. */
  function DatabaseOf(id: string): (r: Option<DiseaseDatabase>)
    ensures r == Some(Omim) <==> StartsWith(id, "OMIM")
    ensures r == Some(Orphanet) <==> StartsWith(id, "ORPHA")
    ensures r == Some(Decipher) <==> StartsWith(id, "DECIPHER")
    ensures r.Some? ==> StartsWith(id, DatabasePrefix(r.value))
  {
    assert StartsWith(id, "OMIM") ==> id[..4][1] == 'M' && id[..4][0] == 'O';
    assert StartsWith(id, "ORPHA") ==> id[..5][1] == 'R';
    assert StartsWith(id, "DECIPHER") ==> id[..8][0] == 'D';
    if StartsWith(id, "OMIM") then Some(Omim)
    else if StartsWith(id, "ORPHA") then Some(Orphanet)
    else if StartsWith(id, "DECIPHER") then Some(Decipher)
    else None
  }

  /** createHpoTermIdFromString: an id must carry the HP: prefix and name a
      term of the ontology (an alternate id is accepted as it is). */
  function CreateHpoTermId(o: HpoOntology, id: string): (r: Result<TermId>)
    ensures r.Ok? <==> exists t :: t in o.termMap && t.prefix == HpPrefix && IdWithPrefix(t) == id
    ensures r.Ok? ==> r.value in o.termMap && r.value.prefix == HpPrefix && IdWithPrefix(r.value) == id
    ensures r.Err? ==> r.failure.Thrown?
    ensures !StartsWith(id, "HP:") ==> r == Err(Thrown(InvalidHpoPrefix))
  {
    if !StartsWith(id, "HP:") then Err(Thrown(InvalidHpoPrefix))
    else
      var tid := TermId(HpPrefix, id[3..]);
      assert IdWithPrefix(tid) == id by { assert id == id[..3] + id[3..]; }
      if tid !in o.termMap then
        assert forall t: TermId :: t.prefix == HpPrefix && IdWithPrefix(t) == id ==> t == tid by {
          forall t: TermId | t.prefix == HpPrefix && IdWithPrefix(t) == id ensures t == tid {
            assert t.local == id[3..];
          }
        }
        Err(Thrown(TermNotInOntology))
      else Ok(tid)
  }

  /** When it has the HP prefix, the primary id setPhenotypeId stores is
      itself accepted and is its own primary id, so setting it again stores
      the same id and raises UPDATING_ALT_ID no more. */
  lemma PrimaryIdIsStable(o: HpoOntology, id: string)
    requires o.Valid() && CreateHpoTermId(o, id).Ok?
    requires o.termMap[CreateHpoTermId(o, id).value].id.prefix == HpPrefix
    ensures var primaryId := o.termMap[CreateHpoTermId(o, id).value].id;
      && CreateHpoTermId(o, IdWithPrefix(primaryId)) == Ok(primaryId)
      && o.termMap[primaryId].id == primaryId
  {
    var primaryId := o.termMap[CreateHpoTermId(o, id).value].id;
    var text := IdWithPrefix(primaryId);
    assert text[..3] == "HP:" && text[3..] == primaryId.local;
  }

  /** The categorical frequency terms (HpoFrequency). FrequencyRoot is
      HP:0040279 and Obligate is HP:0040280. */
  datatype FrequencyTerm = FrequencyRoot | Frequent | VeryFrequent | Obligate | Occasional | VeryRare

  /** How setFrequencyString reads a trimmed frequency value. */
  datatype FrequencyClass =
    | Blank                           // nothing but white space was given
    | TermGiven                       // an HP: id, which the legacy file never holds
    | NumericRatio                    // starts with a digit, kept verbatim
    | Categorical(term: FrequencyTerm)
    | Unmapped

  function ClassifyFrequency(fs: string): (r: FrequencyClass)
    ensures r.Blank? <==> |fs| == 0
    ensures r.TermGiven? <==> StartsWith(fs, "HP:")
    ensures r.NumericRatio? <==> |fs| > 0 && !StartsWith(fs, "HP:") && IsDigit(fs[0])
  {
    if |fs| == 0 then Blank
    else if StartsWith(fs, "HP:") then TermGiven
    else if IsDigit(fs[0]) then NumericRatio
    else if EqualsIgnoreCase(fs, "very rare") then Categorical(VeryRare)
    else if EqualsIgnoreCase(fs, "rare") then Categorical(VeryRare)
    else if EqualsIgnoreCase(fs, "frequent") then Categorical(Frequent)
    else if EqualsIgnoreCase(fs, "occasional") then Categorical(Occasional)
    else if EqualsIgnoreCase(fs, "variable") then Categorical(FrequencyRoot)
    else if EqualsIgnoreCase(fs, "typical") then Categorical(Frequent)
    else if EqualsIgnoreCase(fs, "very frequent") then Categorical(VeryFrequent)
    else if EqualsIgnoreCase(fs, "common") then Categorical(Frequent)
    else if EqualsIgnoreCase(fs, "hallmark") then Categorical(VeryFrequent)
    else if EqualsIgnoreCase(fs, "obligate") then Categorical(Obligate)
    else Unmapped
  }

  /** The frequency vocabulary as a table from lower-case word to term. */
  const FrequencyVocabulary: map<string, FrequencyTerm> := map[
    "very rare" := VeryRare,
    "rare" := VeryRare,
    "frequent" := Frequent,
    "occasional" := Occasional,
    "variable" := FrequencyRoot,
    "typical" := Frequent,
    "very frequent" := VeryFrequent,
    "common" := Frequent,
    "hallmark" := VeryFrequent,
    "obligate" := Obligate]

  /** setFrequencyString's reading of a trimmed value with the ten words
      as one case-insensitive table. */
  function LookupFrequency(fs: string): FrequencyClass
  {
    if |fs| == 0 then Blank
    else if StartsWith(fs, "HP:") then TermGiven
    else if IsDigit(fs[0]) then NumericRatio
    else if ToLower(fs) in FrequencyVocabulary then Categorical(FrequencyVocabulary[ToLower(fs)])
    else Unmapped
  }

  /** The else-if chain over the ten words reads every value as the table
      does: a word is categorical exactly when its lower-case form is in the
      table, and then maps to the table's term; every other word is
      rejected. */
  lemma ClassifyFollowsVocabulary(fs: string)
    ensures ClassifyFrequency(fs) == LookupFrequency(fs)
  {
    if |fs| != 0 && !StartsWith(fs, "HP:") && !IsDigit(fs[0]) {
      VocabularyIsLowerCase();
      VocabularyEntries();
      var w := ToLower(fs);
      if w != "very rare" && w != "rare" && w != "frequent" && w != "occasional" && w != "variable" && w != "typical" && w != "very frequent" && w != "common" && w != "hallmark" && w != "obligate" {
        NotInVocabulary(w);
      }
    }
  }

  /** Every word of the table is already in lower case. */
  lemma VocabularyIsLowerCase()
    ensures ToLower("very rare") == "very rare"
    ensures ToLower("rare") == "rare"
    ensures ToLower("frequent") == "frequent"
    ensures ToLower("occasional") == "occasional"
    ensures ToLower("variable") == "variable"
    ensures ToLower("typical") == "typical"
    ensures ToLower("very frequent") == "very frequent"
    ensures ToLower("common") == "common"
    ensures ToLower("hallmark") == "hallmark"
    ensures ToLower("obligate") == "obligate"
  {
    assert ToLower("very rare") == "very rare";
    assert ToLower("rare") == "rare";
    assert ToLower("frequent") == "frequent";
    assert ToLower("occasional") == "occasional";
    assert ToLower("variable") == "variable";
    assert ToLower("typical") == "typical";
    assert ToLower("very frequent") == "very frequent";
    assert ToLower("common") == "common";
    assert ToLower("hallmark") == "hallmark";
    assert ToLower("obligate") == "obligate";
  }

  /** The table's ten entries. */
  lemma VocabularyEntries()
    ensures "very rare" in FrequencyVocabulary && FrequencyVocabulary["very rare"] == VeryRare
    ensures "rare" in FrequencyVocabulary && FrequencyVocabulary["rare"] == VeryRare
    ensures "frequent" in FrequencyVocabulary && FrequencyVocabulary["frequent"] == Frequent
    ensures "occasional" in FrequencyVocabulary && FrequencyVocabulary["occasional"] == Occasional
    ensures "variable" in FrequencyVocabulary && FrequencyVocabulary["variable"] == FrequencyRoot
    ensures "typical" in FrequencyVocabulary && FrequencyVocabulary["typical"] == Frequent
    ensures "very frequent" in FrequencyVocabulary && FrequencyVocabulary["very frequent"] == VeryFrequent
    ensures "common" in FrequencyVocabulary && FrequencyVocabulary["common"] == Frequent
    ensures "hallmark" in FrequencyVocabulary && FrequencyVocabulary["hallmark"] == VeryFrequent
    ensures "obligate" in FrequencyVocabulary && FrequencyVocabulary["obligate"] == Obligate
  {
  }

  /** The table holds no other word. */
  lemma NotInVocabulary(w: string)
    requires w != "very rare"
          && w != "rare"
          && w != "frequent"
          && w != "occasional"
          && w != "variable"
          && w != "typical"
          && w != "very frequent"
          && w != "common"
          && w != "hallmark"
          && w != "obligate"
    ensures w !in FrequencyVocabulary
  {
  }

  const MaleCode: string := "Male"
  const FemaleCode: string := "Female"

  /** The normalised sex code for a value, matched without regard to case. */
  function SexCode(s: string): (r: Option<string>)
    ensures r == Some(MaleCode) <==> ToLower(s) == "male"
    ensures r == Some(FemaleCode) <==> ToLower(s) == "female"
    ensures r.None? <==> ToLower(s) != "male" && ToLower(s) != "female"
  {
    assert ToLower("MALE") == "male";
    assert ToLower("FEMALE") == "female";
    if EqualsIgnoreCase(s, "MALE") then Some(MaleCode)
    else if EqualsIgnoreCase(s, "FEMALE") then Some(FemaleCode)
    else None
  }

  const NegationCode: string := "NOT"

  /** The four accepted evidence codes. */
  const EvidenceCodes: set<string> := {"IEA", "PCS", "TAS", "ICE"}

  /** evidenceCodeWellFormed. */
  function EvidenceCodeWellFormed(evi: Option<string>): (r: bool)
    ensures r <==> evi.Some? && evi.value in EvidenceCodes
  {
    if evi.None? || |evi.value| == 0 then false
    else if evi.value != "IEA" && evi.value != "PCS" && evi.value != "TAS" && evi.value != "ICE" then false
    else true
  }
}
