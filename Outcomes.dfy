/**
 * The outcomes both authorization nodes share: the fixed outcome ids, the mapping from a
 * decision to an outcome, and the catalog of outcomes a node declares to the host.
 */
module Outcomes {
  import opened Results

  const PermitId := "permit"
  const DenyId := "deny"
  const IndeterminateId := "indeterminate"
  const ContinueId := "continue"
  const ClientErrorId := "clientError"

  /** The switch on a decision: the three verdicts by exact text, the default branch for everything else. */
  function DecisionOutcome(decision: string): (r: string)
    ensures r == PermitId <==> decision == "PERMIT"
    ensures r == DenyId <==> decision == "DENY"
    ensures r == IndeterminateId <==> decision == "INDETERMINATE"
    ensures r == ClientErrorId <==> decision !in {"PERMIT", "DENY", "INDETERMINATE"}
  {
    match decision
    case "PERMIT" => PermitId
    case "DENY" => DenyId
    case "INDETERMINATE" => IndeterminateId
    case _ => ClientErrorId
  }

  /** An outcome as the host lists it: its id and its display label. */
  datatype OutcomeDecl = OutcomeDecl(id: string, displayName: string)

  function Ids(outcomes: seq<OutcomeDecl>): (r: seq<string>)
    ensures |r| == |outcomes| && forall i :: 0 <= i < |r| ==> r[i] == outcomes[i].id
  {
    seq(|outcomes|, i requires 0 <= i < |outcomes| => outcomes[i].id)
  }

  /** The catalog in continue mode; `bundle` is the resource-bundle lookup. */
  function ContinueOutcomes(bundle: string -> string): seq<OutcomeDecl> {
    [OutcomeDecl(ContinueId, bundle(ContinueId)), OutcomeDecl(ClientErrorId, bundle(ClientErrorId))]
  }

  /** One outcome per configured code, the code being both its id and its label. */
  function CodeOutcomes(codes: seq<string>): seq<OutcomeDecl> {
    seq(|codes|, i requires 0 <= i < |codes| => OutcomeDecl(codes[i], codes[i]))
  }

  /** The ids of the catalog outside continue mode. */
  function DecisionIds(codes: seq<string>): seq<string> {
    [PermitId, DenyId, IndeterminateId] + codes + [ClientErrorId]
  }

  /** The catalog otherwise: the three verdicts, the configured codes, then clientError. */
  function DecisionOutcomes(codes: seq<string>, bundle: string -> string): seq<OutcomeDecl> {
    [OutcomeDecl(PermitId, bundle(PermitId)), OutcomeDecl(DenyId, bundle(DenyId)),
     OutcomeDecl(IndeterminateId, bundle(IndeterminateId))]
    + CodeOutcomes(codes)
    + [OutcomeDecl(ClientErrorId, bundle(ClientErrorId))]
  }

  /**
   * The list builder both providers run: in continue mode the continue outcome, otherwise the
   * three verdicts and then one entry per code appended one at a time; clientError is appended last.
   */
  method BuildOutcomes(continueMode: bool, codes: seq<string>, bundle: string -> string)
    returns (outcomes: seq<OutcomeDecl>)
    ensures outcomes == if continueMode then ContinueOutcomes(bundle) else DecisionOutcomes(codes, bundle)
  {
    outcomes := [];
    if continueMode {
      outcomes := outcomes + [OutcomeDecl(ContinueId, bundle(ContinueId))];
    } else {
      outcomes := outcomes + [OutcomeDecl(PermitId, bundle(PermitId))];
      outcomes := outcomes + [OutcomeDecl(DenyId, bundle(DenyId))];
      outcomes := outcomes + [OutcomeDecl(IndeterminateId, bundle(IndeterminateId))];
      var i := 0;
      while i < |codes|
        invariant 0 <= i <= |codes|
        invariant outcomes == [OutcomeDecl(PermitId, bundle(PermitId)), OutcomeDecl(DenyId, bundle(DenyId)),
                               OutcomeDecl(IndeterminateId, bundle(IndeterminateId))] + CodeOutcomes(codes[..i])
      {
        assert CodeOutcomes(codes[..i + 1]) == CodeOutcomes(codes[..i]) + [OutcomeDecl(codes[i], codes[i])];
        outcomes := outcomes + [OutcomeDecl(codes[i], codes[i])];
        i := i + 1;
      }
      assert codes[..i] == codes;
    }
    outcomes := outcomes + [OutcomeDecl(ClientErrorId, bundle(ClientErrorId))];
  }

  /** In continue mode exactly continue then clientError are declared, whatever codes are configured. */
  lemma ContinueCatalogIds(bundle: string -> string)
    ensures Ids(ContinueOutcomes(bundle)) == [ContinueId, ClientErrorId]
  {
  }

  /**
   * Otherwise the ids are permit, deny, indeterminate, the codes in their configured order, and
   * clientError; every code's label is the code itself.
   */
  lemma DecisionCatalogIds(codes: seq<string>, bundle: string -> string)
    ensures Ids(DecisionOutcomes(codes, bundle)) == DecisionIds(codes)
    ensures forall i :: 0 <= i < |codes| ==> DecisionOutcomes(codes, bundle)[3 + i] == OutcomeDecl(codes[i], codes[i])
  {
    var ids := Ids(DecisionOutcomes(codes, bundle));
    var want := DecisionIds(codes);
    assert |ids| == |want|;
    forall i | 0 <= i < |ids| ensures ids[i] == want[i] {
      if 3 <= i < 3 + |codes| {
        assert DecisionOutcomes(codes, bundle)[i] == CodeOutcomes(codes)[i - 3];
      }
    }
  }

  /** The four fixed outcomes of that catalog take their labels from the bundle. */
  lemma DecisionCatalogLabels(codes: seq<string>, bundle: string -> string)
    ensures |DecisionOutcomes(codes, bundle)| == |codes| + 4
    ensures DecisionOutcomes(codes, bundle)[0].displayName == bundle(PermitId)
    ensures DecisionOutcomes(codes, bundle)[1].displayName == bundle(DenyId)
    ensures DecisionOutcomes(codes, bundle)[2].displayName == bundle(IndeterminateId)
    ensures DecisionOutcomes(codes, bundle)[|codes| + 3].displayName == bundle(ClientErrorId)
  {
  }

  /** The two catalogs share only clientError, unless a code is itself "continue". */
  lemma CatalogsShareOnlyClientError(codes: seq<string>, bundle: string -> string, id: string)
    requires ContinueId !in codes
    ensures id in Ids(ContinueOutcomes(bundle)) && id in Ids(DecisionOutcomes(codes, bundle)) <==> id == ClientErrorId
  {
    DecisionCatalogIds(codes, bundle);
    ContinueCatalogIds(bundle);
  }

  /** String.contains: whether `part` occurs in `s`. */
  function Contains(s: string, part: string): (r: bool)
    ensures r <==> exists i :: OccursAt(s, part, i)
    decreases |s|
  {
    if |s| < |part| then false
    else if s[..|part|] == part then (
      assert OccursAt(s, part, 0);
      true)
    else (
      OccurrencesAfterFirst(s, part);
      Contains(s[1..], part))
  }

  /** When `part` does not start `s`, its occurrences in `s` are those in `s[1..]`, shifted by one. */
  lemma OccurrencesAfterFirst(s: string, part: string)
    requires |part| <= |s| && s[..|part|] != part
    ensures (exists i :: OccursAt(s, part, i)) <==> exists j :: OccursAt(s[1..], part, j)
  {
    forall i | OccursAt(s, part, i)
      ensures OccursAt(s[1..], part, i - 1)
    {
      assert i != 0;
      assert s[1..][i - 1..i - 1 + |part|] == s[i..i + |part|];
    }
    forall j | OccursAt(s[1..], part, j)
      ensures OccursAt(s, part, j + 1)
    {
      assert s[j + 1..j + 1 + |part|] == s[1..][j..j + |part|];
    }
  }

  /** `part` occurs in `s` starting at index `i`. */
  predicate OccursAt(s: string, part: string, i: int) {
    0 <= i && i + |part| <= |s| && s[i..i + |part|] == part
  }
}
