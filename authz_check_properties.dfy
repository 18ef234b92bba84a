/** What the decision of `check` guarantees: the condition walk is decided
    by the first condition that does not simply fail, grants are necessary,
    conditions are OR-combined, an unknown condition name stops the walk,
    and order does not matter while every name parses. */
module AuthzCheckProperties {
  import opened Wrappers
  import opened Decimal
  import opened Authz
  import opened AuthzCheck

  /** The index of the first condition that holds or whose name does not
      parse; `|conditions|` when every condition parses and fails. */
  function FirstDecisive(conditions: seq<(string, string)>, model: ResourceModel, subject: Option<string>): (k: nat)
    ensures k <= |conditions|
    ensures forall j :: 0 <= j < k ==> ConditionFails(conditions[j], model, subject)
    ensures k < |conditions| ==> !ConditionFails(conditions[k], model, subject)
  {
    if |conditions| == 0 || !ConditionFails(conditions[0], model, subject) then 0
    else 1 + FirstDecisive(conditions[1..], model, subject)
  }

  /** Only one index can be the first decisive one. */
  lemma FirstDecisiveUnique(conditions: seq<(string, string)>, model: ResourceModel, subject: Option<string>, k: nat)
    requires k <= |conditions|
    requires forall j :: 0 <= j < k ==> ConditionFails(conditions[j], model, subject)
    requires k < |conditions| ==> !ConditionFails(conditions[k], model, subject)
    ensures k == FirstDecisive(conditions, model, subject)
  {
  }

  /** The condition walk, stated through the first decisive condition. */
  lemma {:induction false} DecideConditionsByFirstDecisive(conditions: seq<(string, string)>, model: ResourceModel, subject: Option<string>, detail: ErrorDetail)
    ensures var k := FirstDecisive(conditions, model, subject);
      DecideConditions(conditions, model, subject, detail) ==
        if k == |conditions| then DenyVerdict(detail)
        else if ConditionHolds(conditions[k], model, subject) then Verdict(Allowed, [])
        else UnknownNameVerdict(detail)
  {
    if |conditions| > 0 && ConditionFails(conditions[0], model, subject) {
      DecideConditionsByFirstDecisive(conditions[1..], model, subject, detail);
      var k := FirstDecisive(conditions[1..], model, subject);
      if k < |conditions[1..]| {
        assert conditions[1..][k] == conditions[k + 1];
      }
    }
  }

  /** The first condition that validates allows, with no audit record, as
      long as every condition before it parsed and failed. */
  lemma FirstValidatingConditionAllows(conditions: seq<(string, string)>, model: ResourceModel, subject: Option<string>, detail: ErrorDetail, k: nat)
    requires k < |conditions|
    requires forall j :: 0 <= j < k ==> ConditionFails(conditions[j], model, subject)
    requires ConditionHolds(conditions[k], model, subject)
    ensures DecideConditions(conditions, model, subject, detail) == Verdict(Allowed, [])
  {
    FirstDecisiveUnique(conditions, model, subject, k);
    DecideConditionsByFirstDecisive(conditions, model, subject, detail);
  }

  /** A name that does not parse, reached before any success, denies with
      two audit records (the unknown name, then the denial), whatever the
      conditions after it would have said. */
  lemma UnknownNameDenies(conditions: seq<(string, string)>, model: ResourceModel, subject: Option<string>, detail: ErrorDetail, k: nat)
    requires k < |conditions|
    requires forall j :: 0 <= j < k ==> ConditionFails(conditions[j], model, subject)
    requires ParseModelAttrib(conditions[k].0).Err?
    ensures DecideConditions(conditions, model, subject, detail) == UnknownNameVerdict(detail)
  {
    FirstDecisiveUnique(conditions, model, subject, k);
    DecideConditionsByFirstDecisive(conditions, model, subject, detail);
  }

  /** When every condition parses and fails, the walk denies with one record. */
  lemma NoConditionHoldsDenies(conditions: seq<(string, string)>, model: ResourceModel, subject: Option<string>, detail: ErrorDetail)
    requires forall j :: 0 <= j < |conditions| ==> ConditionFails(conditions[j], model, subject)
    ensures DecideConditions(conditions, model, subject, detail) == DenyVerdict(detail)
  {
    FirstDecisiveUnique(conditions, model, subject, |conditions|);
    DecideConditionsByFirstDecisive(conditions, model, subject, detail);
  }

  /** An allowed walk went through a prefix of conditions that all parsed
      and failed, and the condition right after it validated. */
  lemma AllowedMeansValidatedAfterParsedPrefix(conditions: seq<(string, string)>, model: ResourceModel, subject: Option<string>, detail: ErrorDetail)
    requires DecideConditions(conditions, model, subject, detail).outcome == Allowed
    ensures exists k :: 0 <= k < |conditions| && ConditionHolds(conditions[k], model, subject) &&
                        forall j :: 0 <= j < k ==> ConditionFails(conditions[j], model, subject)
  {
    DecideConditionsByFirstDecisive(conditions, model, subject, detail);
    var k := FirstDecisive(conditions, model, subject);
    assert k < |conditions| && ConditionHolds(conditions[k], model, subject);
  }

  predicate AllNamesParse(conditions: seq<(string, string)>) {
    forall j :: 0 <= j < |conditions| ==> ParseModelAttrib(conditions[j].0).Ok?
  }

  /** While every name parses, conditions combine with OR: the walk allows
      exactly when some condition holds, and denies with one record otherwise. */
  lemma {:induction false} ConditionsCombineWithOr(conditions: seq<(string, string)>, model: ResourceModel, subject: Option<string>, detail: ErrorDetail)
    requires AllNamesParse(conditions)
    ensures DecideConditions(conditions, model, subject, detail) ==
      if exists k :: 0 <= k < |conditions| && ConditionHolds(conditions[k], model, subject)
      then Verdict(Allowed, []) else DenyVerdict(detail)
  {
    DecideConditionsByFirstDecisive(conditions, model, subject, detail);
    var f := FirstDecisive(conditions, model, subject);
    if f < |conditions| {
      assert ConditionHolds(conditions[f], model, subject);
    } else {
      assert forall k :: 0 <= k < |conditions| ==> !ConditionHolds(conditions[k], model, subject);
    }
  }

  /** While every name parses, the order storage returns conditions in does
      not change the decision. */
  lemma ConditionOrderIrrelevant(c1: seq<(string, string)>, c2: seq<(string, string)>, model: ResourceModel, subject: Option<string>, detail: ErrorDetail)
    requires multiset(c1) == multiset(c2)
    requires AllNamesParse(c1)
    ensures DecideConditions(c1, model, subject, detail) == DecideConditions(c2, model, subject, detail)
  {
    forall j | 0 <= j < |c2| ensures ParseModelAttrib(c2[j].0).Ok? {
      assert c2[j] in multiset(c1);
      var i :| 0 <= i < |c1| && c1[i] == c2[j];
    }
    ConditionsCombineWithOr(c1, model, subject, detail);
    ConditionsCombineWithOr(c2, model, subject, detail);
    if k :| 0 <= k < |c1| && ConditionHolds(c1[k], model, subject) {
      assert c1[k] in multiset(c2);
      var i :| 0 <= i < |c2| && c2[i] == c1[k];
      assert ConditionHolds(c2[i], model, subject);
    }
    if k :| 0 <= k < |c2| && ConditionHolds(c2[k], model, subject) {
      assert c2[k] in multiset(c1);
      var i :| 0 <= i < |c1| && c1[i] == c2[k];
      assert ConditionHolds(c1[i], model, subject);
    }
  }

  /** Without a grant, or when the grant queries fail, the request is
      denied with one PERMISSION_DENIED record. */
  lemma NoGrantDenies(db: Storage, req: Request)
    requires QueryReached(db, req)
    requires Query(db, req).Err? || |Query(db, req).value.0| == 0
    ensures Decide(db, req) == DenyVerdict(Detail(req))
  {
  }

  /** A grant without conditions allows, writing nothing and loading no resource. */
  lemma GrantWithoutConditionsAllows(db: Storage, req: Request)
    requires QueryReached(db, req)
    requires Query(db, req).Ok? && |Query(db, req).value.0| > 0 && |Query(db, req).value.1| == 0
    ensures Decide(db, req) == Verdict(Allowed, [])
  {
  }

  /** An allowed request had a grant, and either no conditions or a
      validating condition reached after parsed, failing ones. */
  lemma AllowedRequiresGrant(db: Storage, req: Request)
    requires Decide(db, req).outcome == Allowed
    ensures QueryReached(db, req) && Query(db, req).Ok? && |Query(db, req).value.0| > 0
    ensures var conditions := Query(db, req).value.1;
      conditions == [] ||
      (LoadModel(db, req).Ok? &&
       exists k :: 0 <= k < |conditions| && ConditionHolds(conditions[k], LoadModel(db, req).value, SubjectOf(req.accountId)) &&
         forall j :: 0 <= j < k ==> ConditionFails(conditions[j], LoadModel(db, req).value, SubjectOf(req.accountId)))
  {
    var conditions := Query(db, req).value.1;
    if conditions != [] {
      AllowedMeansValidatedAfterParsedPrefix(conditions, LoadModel(db, req).value, SubjectOf(req.accountId), Detail(req));
    }
  }

  /** A request without an account id never reaches a decision: it panics
      before the grant queries, so the login condition never sees an
      absent subject. */
  lemma AnonymousRequestPanics(db: Storage, req: Request)
    requires req.userAgent.Some? ==> VisibleAscii(req.userAgent.value)
    requires db.poolAvailable && req.accountId.None?
    ensures Decide(db, req) == Verdict(Panic(MissingAccountId), [])
  {
  }

  /** Once conditions are evaluated the subject is present, so an
      "isLoggedIn" condition reached after parsed, failing ones allows. */
  lemma LoggedInConditionAllows(db: Storage, req: Request, k: nat)
    requires QueryReached(db, req) && Query(db, req).Ok? && |Query(db, req).value.0| > 0
    requires LoadModel(db, req).Ok?
    requires var conditions := Query(db, req).value.1;
      k < |conditions| && conditions[k].0 == "isLoggedIn" &&
      forall j :: 0 <= j < k ==> ConditionFails(conditions[j], LoadModel(db, req).value, SubjectOf(req.accountId))
    ensures Decide(db, req) == Verdict(Allowed, [])
  {
    var conditions := Query(db, req).value.1;
    var model := LoadModel(db, req).value;
    assert ConditionHolds(conditions[k], model, SubjectOf(req.accountId));
    FirstValidatingConditionAllows(conditions, model, SubjectOf(req.accountId), Detail(req), k);
  }

  /** Storage for the delete-an-organization scenario: account 42 holds a
      delete grant on organizations with the condition that it owns the
      organization; organization 17 is owned by `owner`. */
  function ScenarioStorage(owner: I32): Storage {
    Storage(
      true,
      (account: I32, resource: string, action: string) =>
        if account == 42 && resource == "organization" && action == "delete"
        then Ok(([1], [("isOwner", "true")])) else Ok(([], [])),
      (id: I32) => User(id),
      (id: I32) => Organization(if id == 17 then owner else 0))
  }

  function ScenarioRequest(): Request {
    Request("127.0.0.1:80", None, Uri("/organization/17", "/organization/17"), Some(42),
      ParsedPath(Some("organization"), Some("17")), "DELETE")
  }

  /** Account 42 may delete organization 17 exactly when it owns it. */
  lemma OrganizationOwnerScenario(owner: I32)
    ensures Decide(ScenarioStorage(owner), ScenarioRequest()).outcome ==
      if owner == 42 then Allowed else Denied(PermissionDenied)
  {
    var db, req := ScenarioStorage(owner), ScenarioRequest();
    assert FromAuthZ(req.path, req.httpMethod) == Delete;
    assert Query(db, req) == Ok(([1], [("isOwner", "true")]));
    assert NatToDecimal(17) == "17";
    ParseU32RoundTrip(17);
    assert LoadModel(db, req) == Ok(OrganizationModel(Organization(owner)));
    OwnerMatchesAccount(Some(owner), 42);
  }
}
