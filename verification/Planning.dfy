/** Consequence planning: what a decision, the observed remote state and the ledger permit. */
module Planning {
  import opened Wrappers
  import opened Policy

  datatype Relationship = Following | NotFollowing | UnknownRelationship

  /** Moderation state of one account as last read; only `known` states may be acted upon. */
  datatype Remote = Remote(known: bool, direct: bool, muted: bool, onlyReposts: bool, onlyQuotes: bool,
                           list: Option<string>, blocked: bool, relationship: Option<Relationship>)

  const UNOBSERVED := Remote(false, false, false, false, false, None, false, None)

  datatype LedgerStatus = Untracked | Unresolved | Attributed | Released | Suspended

  datatype Overrides = Overrides(exempt: bool, allow: bool, keepMuted: bool)

  datatype Action = NoAction | ObserveRequired | SuspendAction | FollowReviewCandidate | MuteAction | ReleaseCandidate

  datatype PlanBasis = Evaluated(basis: Basis) | ExplicitAllowOverride

  /** A planned row. Its fingerprint digests the plan with the evidence ids and rule results, so a
      row is its own fingerprint and equal fingerprints are equal rows. */
  datatype Row = Row(subject: Did, desired: Outcome, basis: PlanBasis, observed: Remote, action: Action, review: bool,
                     overrides: Overrides, ledgerStatus: LedgerStatus, followedReview: bool, relationshipUnresolved: bool,
                     evidenceIds: set<Fact>, rules: seq<RuleResult>)

  predicate HasMute(o: Remote) {
    o.direct || o.muted || o.onlyReposts || o.onlyQuotes || o.list.Some?
  }

  predicate AttributableShape(o: Remote) {
    o.known && o.direct && !(o.onlyReposts || o.onlyQuotes)
  }

  function PlanAction(d: Decision, observed: Remote, ledger: LedgerStatus, overrides: Overrides, followedReview: bool): Row {
    var desired := if overrides.allow then NoJustification else d.outcome;
    var basis := if overrides.allow then ExplicitAllowOverride else Evaluated(d.basis);
    var base := Row(d.subject, desired, basis, observed, NoAction, false, overrides, ledger, followedReview, false,
                    d.evidenceIds, d.rules);
    if overrides.exempt then base
    else if ledger == Unresolved || ledger == Suspended then base.(review := true)
    else if !observed.known then
      if desired == Quarantined then base.(action := ObserveRequired) else base
    else if ledger == Attributed && !AttributableShape(observed) then base.(action := SuspendAction, review := true)
    else if desired == Indeterminate then base
    else if desired == Quarantined then
      if HasMute(observed) || observed.blocked then base
      else if followedReview then
        var relationship := match observed.relationship case Some(r) => r case None => UnknownRelationship;
        if relationship == Following then base.(action := FollowReviewCandidate, review := true)
        else if relationship != NotFollowing then base.(relationshipUnresolved := true, review := true)
        else base.(action := MuteAction)
      else base.(action := MuteAction)
    else if overrides.keepMuted then base
    else if ledger == Attributed && observed.direct then base.(action := ReleaseCandidate, review := true)
    else base
  }

  /** Which ledger states let a write begin: a mute needs no outstanding claim, a release needs a confirmed one. */
  predicate Permits(status: LedgerStatus, mute: bool) {
    if mute then status == Untracked || status == Released else status == Attributed
  }

  /** A new mute, whether direct or through the follow review, is planned exactly here. */
  lemma MutePlannedExactly(d: Decision, o: Remote, ledger: LedgerStatus, overrides: Overrides, followedReview: bool)
    ensures var row := PlanAction(d, o, ledger, overrides, followedReview);
            (row.action == MuteAction || row.action == FollowReviewCandidate <==>
              d.outcome == Quarantined && !overrides.exempt && !overrides.allow && Permits(ledger, true) &&
              o.known && !HasMute(o) && !o.blocked &&
              (followedReview ==> o.relationship == Some(Following) || o.relationship == Some(NotFollowing))) &&
            (row.action == FollowReviewCandidate ==> followedReview && o.relationship == Some(Following))
  {
    assert ledger == Attributed && AttributableShape(o) ==> HasMute(o);
  }

  /** A release is proposed exactly for an attributed, still direct mute without current justification. */
  lemma ReleasePlannedExactly(d: Decision, o: Remote, ledger: LedgerStatus, overrides: Overrides, followedReview: bool)
    ensures PlanAction(d, o, ledger, overrides, followedReview).action == ReleaseCandidate <==>
            Permits(ledger, false) && AttributableShape(o) && !overrides.exempt && !overrides.keepMuted &&
            (d.outcome == NoJustification || overrides.allow)
  {
    assert o.known && !AttributableShape(o) ==> !o.direct || o.onlyReposts || o.onlyQuotes;
  }

  predicate Frozen(status: LedgerStatus) {
    status == Unresolved || status == Suspended
  }

  /** Nothing is planned for an unresolved or suspended subject but review by hand. */
  lemma NothingPlannedWhileFrozen(d: Decision, o: Remote, ledger: LedgerStatus, overrides: Overrides, followedReview: bool)
    requires Frozen(ledger)
    ensures PlanAction(d, o, ledger, overrides, followedReview).action == NoAction
  {
  }
}
