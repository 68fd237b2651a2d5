/** The free-text miner of setDescription: the description is split on ';'
    and each clause may name a modifier, hint at a frequency, or stay in the
    description. */
module DescriptionMiner {
  import opened Outcomes
  import opened JavaText
  import opened Ontology
  import opened Vocabulary

  /** The part of an entry setDescription reads and writes, plus the clauses
      kept so far. */
  datatype Mined = Mined(
    evidenceID: Option<string>,
    frequencyId: Option<FrequencyTerm>,
    frequencyString: Option<string>,
    modifierset: set<TermId>,
    qcIssues: set<QcCode>,
    kept: seq<string>)

  /** Which branch of the clause chain a clause takes. */
  datatype ClauseKind =
    | RecurrentModifier             // "MODIFIER:" naming recurrence: skipped
    | NamedModifier(id: TermId)     // "MODIFIER:" naming a modifier label
    | UnknownModifier               // "MODIFIER:" naming nothing known
    | RareHint                      // contains "(RARE)"
    | SomePatientsHint              // contains "(IN SOME PATIENTS)"
    | BareModifier(id: TermId)      // is, up to case, a modifier label
    | FreeText

  function Classify(a: string, modifiers: map<string, TermId>): (k: ClauseKind)
    ensures k.RecurrentModifier? || k.NamedModifier? || k.UnknownModifier? <==> StartsWith(a, "MODIFIER:")
    ensures ModifierOf(k).Some? ==> ModifierOf(k).value in modifiers.Values
    ensures k.FreeText? ==> ToLower(a) !in modifiers
  {
    if StartsWith(a, "MODIFIER:") then
      var candidate := ToLower(a[9..]);
      if Contains(candidate, "recurrent") then RecurrentModifier
      else if candidate in modifiers then NamedModifier(modifiers[candidate])
      else UnknownModifier
    else if Contains(a, "(RARE)") then RareHint
    else if Contains(a, "(IN SOME PATIENTS)") then SomePatientsHint
    else if ToLower(a) in modifiers then BareModifier(modifiers[ToLower(a)])
    else FreeText
  }

  /** The clause stays in the description. */
  predicate Retained(k: ClauseKind)
  {
    k.RareHint? || k.SomePatientsHint? || k.FreeText?
  }

  /** The modifier term a clause adds to the modifier set, if any. */
  function ModifierOf(k: ClauseKind): Option<TermId>
  {
    match k
    case NamedModifier(id) => Some(id)
    case BareModifier(id) => Some(id)
    case _ => None
  }

  /** The frequency a hint clause supplies when none is set yet. */
  function HintOf(k: ClauseKind): Option<(FrequencyTerm, string)>
  {
    match k
    case RareHint => Some((VeryRare, "Very rare"))
    case SomePatientsHint => Some((Occasional, "Occasional"))
    case _ => None
  }

  /** Sets the frequency only when neither the id nor the text is set. */
  function DefaultFrequency(st: Mined, hint: (FrequencyTerm, string)): Mined
  {
    if st.frequencyId.None? && st.frequencyString.None?
    then st.(frequencyId := Some(hint.0), frequencyString := Some(hint.1))
    else st
  }

  /** One pass of the loop body of setDescription. The OMIM-CS test stands
      apart from the chain: it sets the evidence to TAS and the clause then
      goes through the chain as well. */
  function MineClause(st: Mined, a: string, modifiers: map<string, TermId>): (r: Result<Mined>)
    ensures r.Err? <==> Classify(a, modifiers).UnknownModifier?
    ensures r.Err? ==> r.failure == Exit(UnidentifiedModifier)
    ensures r.Ok? ==> && st.modifierset <= r.value.modifierset
                      && st.qcIssues <= r.value.qcIssues
                      && r.value.kept == st.kept + if Retained(Classify(a, modifiers)) then [a] else []
  {
    var st' := if Contains(a, "OMIM-CS") then st.(evidenceID := Some("TAS")) else st;
    match Classify(a, modifiers)
    case RecurrentModifier => Ok(st')
    case NamedModifier(id) => Ok(st'.(modifierset := st'.modifierset + {id}))
    case UnknownModifier => Err(Exit(UnidentifiedModifier))
    case RareHint => Ok(DefaultFrequency(st', (VeryRare, "Very rare")).(kept := st'.kept + [a]))
    case SomePatientsHint => Ok(DefaultFrequency(st', (Occasional, "Occasional")).(kept := st'.kept + [a]))
    case BareModifier(id) => Ok(st'.(qcIssues := st'.qcIssues + {CreatedModifier}, modifierset := st'.modifierset + {id}))
    case FreeText => Ok(st'.(kept := st'.kept + [a]))
  }

  /** A clause fails or succeeds whatever was kept before it, and it can
      only append itself to the kept clauses. */
  lemma MineClauseAppends(st: Mined, a: string, modifiers: map<string, TermId>)
    ensures MineClause(st, a, modifiers).Ok? <==> Classify(a, modifiers) != UnknownModifier
    ensures MineClause(st, a, modifiers).Ok? ==>
      MineClause(st, a, modifiers).value
        == MineClause(st.(kept := []), a, modifiers).value.(kept := st.kept + if Retained(Classify(a, modifiers)) then [a] else [])
  {
  }

  /** The loop of setDescription over the clauses, in order; it stops at the
      first failing clause. */
  function Mine(st: Mined, clauses: seq<string>, modifiers: map<string, TermId>): (r: Result<Mined>)
    ensures r.Err? ==> r.failure == Exit(UnidentifiedModifier)
    ensures r.Ok? ==> && st.modifierset <= r.value.modifierset
                      && st.qcIssues <= r.value.qcIssues
                      && |st.kept| <= |r.value.kept| && r.value.kept[..|st.kept|] == st.kept
    decreases |clauses|
  {
    if clauses == [] then Ok(st)
    else
      match Mine(st, clauses[..|clauses| - 1], modifiers)
      case Ok(prev) => MineClause(prev, clauses[|clauses| - 1], modifiers)
      case Err(f) => Err(f)
  }

  /** Mining one more clause continues from the state mined so far. */
  lemma MineStep(st: Mined, clauses: seq<string>, i: nat, modifiers: map<string, TermId>)
    requires i < |clauses| && Mine(st, clauses[..i], modifiers).Ok?
    ensures Mine(st, clauses[..i + 1], modifiers) == MineClause(Mine(st, clauses[..i], modifiers).value, clauses[i], modifiers)
  {
    assert clauses[..i + 1][..i] == clauses[..i];
  }

  /** Mining clause i from the state mined so far, with the kept clauses
      carried beside it: either the clause fails and so does the whole run,
      or the run continues from the clause's result. */
  lemma MineAdvance(st: Mined, clauses: seq<string>, i: nat, modifiers: map<string, TermId>, view: Mined, kept: seq<string>)
    requires i < |clauses| && view.kept == []
    requires Mine(st, clauses[..i], modifiers) == Ok(view.(kept := kept))
    ensures MineClause(view, clauses[i], modifiers).Err? ==> Mine(st, clauses, modifiers) == Err(Exit(UnidentifiedModifier))
    ensures MineClause(view, clauses[i], modifiers).Ok? ==>
      Mine(st, clauses[..i + 1], modifiers)
        == Ok(MineClause(view, clauses[i], modifiers).value.(kept := kept + if Retained(Classify(clauses[i], modifiers)) then [clauses[i]] else []))
  {
    MineStep(st, clauses, i, modifiers);
    MineClauseAppends(view.(kept := kept), clauses[i], modifiers);
    assert view.(kept := kept).(kept := []) == view;
    if MineClause(view, clauses[i], modifiers).Err? {
      assert clauses[i] in clauses;
      MineFailsOnUnknownModifier(st, clauses, modifiers);
    }
  }

  /** The clauses that stay in the description, in their original order. */
  function Kept(clauses: seq<string>, modifiers: map<string, TermId>): seq<string>
    decreases |clauses|
  {
    if clauses == [] then []
    else
      var last := clauses[|clauses| - 1];
      Kept(clauses[..|clauses| - 1], modifiers) + (if Retained(Classify(last, modifiers)) then [last] else [])
  }

  /** The first frequency hint among the clauses. */
  function FirstHint(clauses: seq<string>, modifiers: map<string, TermId>): Option<(FrequencyTerm, string)>
    decreases |clauses|
  {
    if clauses == [] then None
    else if HintOf(Classify(clauses[0], modifiers)).Some? then HintOf(Classify(clauses[0], modifiers))
    else FirstHint(clauses[1..], modifiers)
  }

  /** Mining fails exactly when some clause is a "MODIFIER:" clause that
      names no known modifier, and the failure is the exit of the process. */
  lemma {:induction false} MineFailsOnUnknownModifier(st: Mined, clauses: seq<string>, modifiers: map<string, TermId>)
    ensures Mine(st, clauses, modifiers).Err?
        <==> exists a :: a in clauses && Classify(a, modifiers) == UnknownModifier
    ensures Mine(st, clauses, modifiers).Err? ==> Mine(st, clauses, modifiers).failure == Exit(UnidentifiedModifier)
    decreases |clauses|
  {
    if clauses != [] {
      var prefix, last := clauses[..|clauses| - 1], clauses[|clauses| - 1];
      assert clauses == prefix + [last];
      MineFailsOnUnknownModifier(st, prefix, modifiers);
    }
  }

  /** The kept clauses are appended in order. */
  lemma {:induction false} MineKeeps(st: Mined, clauses: seq<string>, modifiers: map<string, TermId>)
    requires Mine(st, clauses, modifiers).Ok?
    ensures Mine(st, clauses, modifiers).value.kept == st.kept + Kept(clauses, modifiers)
    decreases |clauses|
  {
    if clauses != [] {
      MineKeeps(st, clauses[..|clauses| - 1], modifiers);
    }
  }

  /** A clause is kept exactly when it is a frequency hint or free text; in
      particular no "MODIFIER:" clause and no bare modifier label is kept. */
  lemma {:induction false} KeptClauses(clauses: seq<string>, modifiers: map<string, TermId>)
    ensures forall a :: a in Kept(clauses, modifiers) <==> a in clauses && Retained(Classify(a, modifiers))
    ensures forall a :: a in Kept(clauses, modifiers) ==> !StartsWith(a, "MODIFIER:") && ModifierOf(Classify(a, modifiers)).None?
    decreases |clauses|
  {
    if clauses != [] {
      var prefix, last := clauses[..|clauses| - 1], clauses[|clauses| - 1];
      assert clauses == prefix + [last];
      KeptClauses(prefix, modifiers);
    }
  }

  /** The modifier set gains exactly the terms the clauses name, by a
      "MODIFIER:" clause or by a bare label. */
  lemma {:induction false} MineModifiers(st: Mined, clauses: seq<string>, modifiers: map<string, TermId>)
    requires Mine(st, clauses, modifiers).Ok?
    ensures forall id ::
              id in Mine(st, clauses, modifiers).value.modifierset
              <==> id in st.modifierset || exists a :: a in clauses && ModifierOf(Classify(a, modifiers)) == Some(id)
    decreases |clauses|
  {
    if clauses != [] {
      var prefix, last := clauses[..|clauses| - 1], clauses[|clauses| - 1];
      assert clauses == prefix + [last];
      MineModifiers(st, prefix, modifiers);
      var prev := Mine(st, prefix, modifiers).value;
      assert Mine(st, clauses, modifiers) == MineClause(prev, last, modifiers);
      MineClauseModifier(prev, last, modifiers);
    }
  }

  /** One clause adds at most the modifier it names. */
  lemma MineClauseModifier(st: Mined, a: string, modifiers: map<string, TermId>)
    requires MineClause(st, a, modifiers).Ok?
    ensures MineClause(st, a, modifiers).value.modifierset
         == st.modifierset + match ModifierOf(Classify(a, modifiers))
                             case Some(id) => {id}
                             case None => {}
  {
  }

  /** The evidence becomes TAS exactly when some clause mentions OMIM-CS. */
  lemma {:induction false} MineEvidence(st: Mined, clauses: seq<string>, modifiers: map<string, TermId>)
    requires Mine(st, clauses, modifiers).Ok?
    ensures Mine(st, clauses, modifiers).value.evidenceID
         == if exists a :: a in clauses && Contains(a, "OMIM-CS") then Some("TAS") else st.evidenceID
    decreases |clauses|
  {
    if clauses != [] {
      var prefix, last := clauses[..|clauses| - 1], clauses[|clauses| - 1];
      assert clauses == prefix + [last];
      MineEvidence(st, prefix, modifiers);
      var prev := Mine(st, prefix, modifiers).value;
      assert Mine(st, clauses, modifiers) == MineClause(prev, last, modifiers);
      MineClauseEvidence(prev, last, modifiers);
      assert (exists a :: a in clauses && Contains(a, "OMIM-CS"))
         <==> (exists a :: a in prefix && Contains(a, "OMIM-CS")) || Contains(last, "OMIM-CS");
    }
  }

  /** One clause sets the evidence to TAS exactly when it mentions OMIM-CS. */
  lemma MineClauseEvidence(st: Mined, a: string, modifiers: map<string, TermId>)
    requires MineClause(st, a, modifiers).Ok?
    ensures MineClause(st, a, modifiers).value.evidenceID
         == if Contains(a, "OMIM-CS") then Some("TAS") else st.evidenceID
  {
  }

  /** CreatedModifier is raised exactly when some clause is a bare modifier label. */
  lemma {:induction false} MineQcIssues(st: Mined, clauses: seq<string>, modifiers: map<string, TermId>)
    requires Mine(st, clauses, modifiers).Ok?
    ensures Mine(st, clauses, modifiers).value.qcIssues
         == st.qcIssues + if exists a :: a in clauses && Classify(a, modifiers).BareModifier?
                          then {CreatedModifier} else {}
    decreases |clauses|
  {
    if clauses != [] {
      var prefix, last := clauses[..|clauses| - 1], clauses[|clauses| - 1];
      assert clauses == prefix + [last];
      MineQcIssues(st, prefix, modifiers);
      var prev := Mine(st, prefix, modifiers).value;
      var bare := Classify(last, modifiers).BareModifier?;
      assert Mine(st, clauses, modifiers) == MineClause(prev, last, modifiers);
      MineClauseQcIssues(prev, last, modifiers);
      assert (exists a :: a in clauses && Classify(a, modifiers).BareModifier?)
         <==> (exists a :: a in prefix && Classify(a, modifiers).BareModifier?) || bare;
    }
  }

  /** One clause raises CreatedModifier only when it is a bare modifier label. */
  lemma MineClauseQcIssues(st: Mined, a: string, modifiers: map<string, TermId>)
    requires MineClause(st, a, modifiers).Ok?
    ensures MineClause(st, a, modifiers).value.qcIssues
         == st.qcIssues + if Classify(a, modifiers).BareModifier? then {CreatedModifier} else {}
  {
  }

  lemma {:induction false} FirstHintAppend(clauses: seq<string>, a: string, modifiers: map<string, TermId>)
    ensures FirstHint(clauses + [a], modifiers)
         == if FirstHint(clauses, modifiers).Some? then FirstHint(clauses, modifiers) else HintOf(Classify(a, modifiers))
    decreases |clauses|
  {
    if clauses != [] {
      assert (clauses + [a])[1..] == clauses[1..] + [a];
      FirstHintAppend(clauses[1..], a, modifiers);
    }
  }

  /** A frequency already present (id or text, even an empty text) is never
      changed; otherwise the first hint clause sets both fields, and without
      a hint clause both stay unset. */
  lemma {:induction false} MineFrequency(st: Mined, clauses: seq<string>, modifiers: map<string, TermId>)
    requires Mine(st, clauses, modifiers).Ok?
    ensures var r := Mine(st, clauses, modifiers).value;
      if st.frequencyId.Some? || st.frequencyString.Some? then
        r.frequencyId == st.frequencyId && r.frequencyString == st.frequencyString
      else
        match FirstHint(clauses, modifiers)
        case None => r.frequencyId.None? && r.frequencyString.None?
        case Some(hint) => r.frequencyId == Some(hint.0) && r.frequencyString == Some(hint.1)
    decreases |clauses|
  {
    if clauses != [] {
      var prefix, last := clauses[..|clauses| - 1], clauses[|clauses| - 1];
      assert clauses == prefix + [last];
      MineFrequency(st, prefix, modifiers);
      FirstHintAppend(prefix, last, modifiers);
      MineClauseFrequency(Mine(st, prefix, modifiers).value, last, modifiers);
    }
  }

  /** One clause sets the frequency only from its own hint, and only when
      none is set yet. */
  lemma MineClauseFrequency(st: Mined, a: string, modifiers: map<string, TermId>)
    requires MineClause(st, a, modifiers).Ok?
    ensures var r := MineClause(st, a, modifiers).value;
      if st.frequencyId.Some? || st.frequencyString.Some? || HintOf(Classify(a, modifiers)).None? then
        r.frequencyId == st.frequencyId && r.frequencyString == st.frequencyString
      else
        var hint := HintOf(Classify(a, modifiers)).value;
        r.frequencyId == Some(hint.0) && r.frequencyString == Some(hint.1)
  {
  }
}
