/** The index of clinical modifier labels: every term of the Clinical modifier
    subhierarchy, keyed by its lower-cased label. */
module ModifierIndex {
  import opened JavaText
  import opened Ontology

  /** The stack walk of findModifierTerms: pops a term, records it and pushes
      each of its children, with no visited set. The walk ends because rank
      strictly decreases along child edges; it records exactly root and the
      terms reachable from it. */
  method CollectDescendants(o: HpoOntology, root: TermId, ghost rank: TermId -> nat)
    returns (descendents: set<TermId>)
    requires Ranked(o, rank)
    ensures forall t :: t in descendents <==> Descends(o, root, t)
  {
    var stack := [root];
    descendents := {};
    DescendsFromItself(o, root);
    while stack != []
      invariant forall s :: s in stack ==> Descends(o, root, s)
      invariant forall d :: d in descendents ==> Descends(o, root, d)
      invariant root in descendents || root in stack
      invariant forall d, k :: d in descendents && k in o.Children(d) ==> k in descendents || k in stack
      decreases UnfoldingOfStack(o, rank, stack)
    {
      ghost var before, seen := stack, descendents;
      var parent := stack[|stack| - 1];
      stack := stack[..|stack| - 1];
      assert before == stack + [parent];
      UnfoldingOfStackPush(o, rank, stack, parent);
      descendents := descendents + {parent};
      var kids := o.Children(parent);
      forall k | k in kids ensures Descends(o, root, k) {
        DescendsStep(o, root, parent, k);
      }
      ghost var popped := stack;
      stack := PushAll(stack, kids, o, rank, parent);
      ClosedAfterVisit(o, seen, popped, parent, stack);
    }
    ClosedSetHoldsDescendants(o, root, descendents);
  }

  /** Visiting the top of the stack keeps every child of a visited term
      visited or still on the stack. */
  lemma ClosedAfterVisit(o: HpoOntology, seen: set<TermId>, popped: seq<TermId>, parent: TermId, pushed: seq<TermId>)
    requires forall d, k :: d in seen && k in o.Children(d) ==> k in seen || k in popped + [parent]
    requires forall s :: s in pushed <==> s in popped || s in o.Children(parent)
    ensures forall d, k :: d in seen + {parent} && k in o.Children(d) ==> k in seen + {parent} || k in pushed
  {
  }

  /** Pushes each child of parent on the stack: the stack gains exactly the
      children, in whatever order the set yields them. */
  method PushAll(stack: seq<TermId>, kids: set<TermId>, ghost o: HpoOntology, ghost rank: TermId -> nat, ghost parent: TermId)
    returns (pushed: seq<TermId>)
    requires Ranked(o, rank) && kids <= o.Children(parent)
    ensures |stack| <= |pushed| && pushed[..|stack|] == stack
    ensures forall s :: s in pushed[|stack|..] <==> s in kids
    ensures forall i, j :: |stack| <= i < j < |pushed| ==> pushed[i] != pushed[j]
    ensures forall s :: s in pushed <==> s in stack || s in kids
    ensures UnfoldingOfStack(o, rank, pushed)
         == UnfoldingOfStack(o, rank, stack) + UnfoldingOfChildren(o, rank, parent, kids)
  {
    pushed := stack;
    ghost var added: seq<TermId> := [];
    var rest := kids;
    while rest != {}
      invariant rest <= kids
      invariant pushed == stack + added
      invariant forall s :: s in added <==> s in kids - rest
      invariant forall i, j :: 0 <= i < j < |added| ==> added[i] != added[j]
      invariant UnfoldingOfStack(o, rank, pushed) + UnfoldingOfChildren(o, rank, parent, rest)
             == UnfoldingOfStack(o, rank, stack) + UnfoldingOfChildren(o, rank, parent, kids)
      decreases rest
    {
      var k :| k in rest;
      UnfoldingOfChildrenSplit(o, rank, parent, rest, k);
      UnfoldingOfStackPush(o, rank, pushed, k);
      assert k !in added;
      pushed := pushed + [k];
      added := added + [k];
      rest := rest - {k};
    }
    assert pushed[..|stack|] == stack;
    assert pushed[|stack|..] == added;
  }

  /** m is an index of the Clinical modifier subhierarchy of o: every value
      is the root or one of its descendants, filed under its lower-cased
      label, and every such term's label is a key. */
  ghost predicate IsModifierIndex(o: HpoOntology, m: map<string, TermId>)
  {
    && (forall key :: key in m ==>
          && Descends(o, ClinicalModifierRoot, m[key])
          && m[key] in o.termMap
          && key == ToLower(o.termMap[m[key]].name))
    && (forall t :: Descends(o, ClinicalModifierRoot, t) ==>
          t in o.termMap && ToLower(o.termMap[t].name) in m)
  }

  /** findModifierTerms: maps the lower-cased label of every term of the
      Clinical modifier subhierarchy to a term carrying that label. When two
      terms share a label, which one is kept follows the iteration order of
      a hash set, so the choice here is left open. */
  method FindModifierTerms(o: HpoOntology, ghost rank: TermId -> nat)
    returns (modifier2TermId: map<string, TermId>)
    requires o.Valid() && Ranked(o, rank) && ClinicalModifierRoot in o.termMap
    ensures IsModifierIndex(o, modifier2TermId)
  {
    var descendents := CollectDescendants(o, ClinicalModifierRoot, rank);
    forall t | t in descendents ensures t in o.termMap {
      DescendantIsKnown(o, ClinicalModifierRoot, t);
    }
    modifier2TermId := map[];
    var remaining := descendents;
    while remaining != {}
      invariant remaining <= descendents
      invariant forall key :: key in modifier2TermId ==>
        modifier2TermId[key] in descendents && key == ToLower(o.termMap[modifier2TermId[key]].name)
      invariant forall t :: t in descendents && t !in remaining ==> ToLower(o.termMap[t].name) in modifier2TermId
      decreases remaining
    {
      var tid :| tid in remaining;
      var key := ToLower(o.termMap[tid].name);
      modifier2TermId := modifier2TermId[key := tid];
      remaining := remaining - {tid};
    }
  }
}
