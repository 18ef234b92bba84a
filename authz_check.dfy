/** The decision procedure of the authorization engine (`check`), the
    resource loader it consults (`get_model`), and the audit log every
    denial writes to. The database reads are inputs: a pool that may be
    exhausted, a grant query that may fail, and the user and organization
    loaders. */
module AuthzCheck {
  import opened Wrappers
  import opened Decimal
  import opened Authz

  /** A failed grant or condition query. */
  datatype StorageError = QueryFailed

  /** What the grant queries return: the ids of the grants for the
      (account, resource type, action) triple, and the (name, literal)
      pairs of the conditions attached to them, in storage order. */
  type Selection = (seq<I32>, seq<(string, string)>)

  /** The database as the engine sees it. `select` answers both grant
      queries for an account id, a resource type and a stored action name. */
  datatype Storage = Storage(
    poolAvailable: bool,
    select: (I32, string, string) -> Result<Selection, StorageError>,
    loadUser: I32 -> User,
    loadOrganization: I32 -> Organization)

  /** The request URI: its full text and its path. */
  datatype Uri = Uri(text: string, path: string)

  /** A request as `check` receives it; `userAgent` is the raw value of the
      User-Agent header, if the request has one. */
  datatype Request = Request(
    reqAddress: string,
    userAgent: Option<string>,
    uri: Uri,
    accountId: Option<U32>,
    path: ParsedPath,
    httpMethod: string)

  /** What an audit record says about the request that was refused. */
  datatype ErrorDetail = ErrorDetail(
    requestUrl: string,
    requestUrlParsed: string,
    reqAddress: string,
    userAgent: Option<string>)

  /** One row written by `log_to_db`. */
  datatype AuditRecord = AuditRecord(code: ErrorCode, detail: ErrorDetail)

  /** The places where `check` panics instead of deciding. */
  datatype PanicSite =
    | UserAgentNotVisibleAscii
    | PoolUnavailable
    | MissingAccountId
    | MissingController
    | MissingResourceId
    | ResourceIdNotU32
    | UnsupportedResourceType

  datatype CheckOutcome = Allowed | Denied(error: ErrorCode) | Panic(site: PanicSite)

  /** The outcome of one check together with the audit records it wrote, in order. */
  datatype Verdict = Verdict(outcome: CheckOutcome, log: seq<AuditRecord>)

  /** A header value that reads as text: visible ASCII or tab. */
  predicate VisibleAscii(value: string) {
    forall i :: 0 <= i < |value| ==> value[i] == '\t' || ' ' <= value[i] <= '~'
  }

  function Detail(req: Request): ErrorDetail {
    ErrorDetail(req.uri.text, req.uri.path, req.reqAddress, req.userAgent)
  }

  /** The subject the validators see: the account id in decimal. */
  function SubjectOf(accountId: Option<U32>): (s: Option<string>)
    ensures s.Some? <==> accountId.Some?
    ensures s.Some? ==> ParseU32(s.value) == accountId
  {
    match accountId
    case Some(id) =>
      ParseU32RoundTrip(id);
      Some(NatToDecimal(id))
    case None => None
  }

  /** Loads the resource a request names: users and organizations are
      known; any other resource type is unimplemented and panics. Ids are
      looked up after the `as i32` cast. */
  function GetModel(db: Storage, resourceName: string, resourceId: U32): (r: Result<ResourceModel, PanicSite>)
    ensures r.Ok? <==> resourceName == "user" || resourceName == "organization"
    ensures r.Err? ==> r.error == UnsupportedResourceType
    ensures resourceName == "user" ==> r.Ok? && ModelGetAttr(r.value, Owner) == Some(db.loadUser(AsI32(resourceId)).accountId)
    ensures resourceName == "organization" ==>
      r.Ok? && ModelGetAttr(r.value, Owner) == Some(db.loadOrganization(AsI32(resourceId)).ownerAccountId)
  {
    var id := AsI32(resourceId);
    match resourceName
    case "user" => Ok(UserModel(db.loadUser(id)))
    case "organization" => Ok(OrganizationModel(db.loadOrganization(id)))
    case _ => Err(UnsupportedResourceType)
  }

  /** Whether `check` gets as far as the grant queries without panicking. */
  predicate QueryReached(db: Storage, req: Request) {
    (req.userAgent.Some? ==> VisibleAscii(req.userAgent.value)) &&
    db.poolAvailable && req.accountId.Some? && req.path.controller.Some?
  }

  /** The grant queries, keyed by the account id cast to `i32`, the resource
      type and the stored name of the requested action. */
  function Query(db: Storage, req: Request): Result<Selection, StorageError>
    requires QueryReached(db, req)
  {
    db.select(AsI32(req.accountId.value), req.path.controller.value, ActionName(FromAuthZ(req.path, req.httpMethod)))
  }

  /** The resource the conditions are checked against, from the path's
      resource type and id. */
  function LoadModel(db: Storage, req: Request): (r: Result<ResourceModel, PanicSite>)
    requires req.path.controller.Some?
    ensures req.path.id.None? ==> r == Err(MissingResourceId)
    ensures req.path.id.Some? && ParseU32(req.path.id.value).None? ==> r == Err(ResourceIdNotU32)
    ensures r.Ok? <==>
      req.path.id.Some? && ParseU32(req.path.id.value).Some? &&
      (req.path.controller.value == "user" || req.path.controller.value == "organization")
    ensures r.Ok? ==>
      (ModelGetAttr(r.value, Owner) ==
         Some(if req.path.controller.value == "user"
              then db.loadUser(AsI32(ParseU32(req.path.id.value).value)).accountId
              else db.loadOrganization(AsI32(ParseU32(req.path.id.value).value)).ownerAccountId))
  {
    if req.path.id.None? then Err(MissingResourceId)
    else match ParseU32(req.path.id.value)
      case None => Err(ResourceIdNotU32)
      case Some(id) => GetModel(db, req.path.controller.value, id)
  }

  /** A condition whose name parses and whose validator accepts. */
  predicate ConditionHolds(c: (string, string), model: ResourceModel, subject: Option<string>) {
    match ParseModelAttrib(c.0)
    case Ok(a) => Validate(FromModelAttrib(a), ModelGetAttr(model, a), subject, c.1)
    case Err(_) => false
  }

  /** A condition whose name parses but whose validator refuses. */
  predicate ConditionFails(c: (string, string), model: ResourceModel, subject: Option<string>) {
    ParseModelAttrib(c.0).Ok? && !ConditionHolds(c, model, subject)
  }

  function DenyVerdict(detail: ErrorDetail): Verdict {
    Verdict(Denied(PermissionDenied), [AuditRecord(PermissionDenied, detail)])
  }

  function UnknownNameVerdict(detail: ErrorDetail): Verdict {
    Verdict(Denied(PermissionDenied), [AuditRecord(ModelAttributeNotDefined, detail), AuditRecord(PermissionDenied, detail)])
  }

  /** The condition walk: the first condition that holds allows, the first
      name that does not parse denies at once, and running out denies. */
  function DecideConditions(conditions: seq<(string, string)>, model: ResourceModel, subject: Option<string>, detail: ErrorDetail): (v: Verdict)
    ensures v == Verdict(Allowed, []) || v == DenyVerdict(detail) || v == UnknownNameVerdict(detail)
    ensures v == Verdict(Allowed, []) ==> exists k :: 0 <= k < |conditions| && ConditionHolds(conditions[k], model, subject)
    ensures v == UnknownNameVerdict(detail) ==> exists k :: 0 <= k < |conditions| && ParseModelAttrib(conditions[k].0).Err?
  {
    if |conditions| == 0 then DenyVerdict(detail)
    else match ParseModelAttrib(conditions[0].0)
      case Err(e) => Verdict(Denied(PermissionDenied), [AuditRecord(e, detail), AuditRecord(PermissionDenied, detail)])
      case Ok(a) =>
        if Validate(FromModelAttrib(a), ModelGetAttr(model, a), subject, conditions[0].1) then Verdict(Allowed, [])
        else
          var v := DecideConditions(conditions[1..], model, subject, detail);
          assert v == Verdict(Allowed, []) ==> exists k :: 1 <= k < |conditions| && ConditionHolds(conditions[k], model, subject) by {
            if v == Verdict(Allowed, []) {
              var k :| 0 <= k < |conditions[1..]| && ConditionHolds(conditions[1..][k], model, subject);
              assert conditions[1..][k] == conditions[k + 1];
            }
          }
          assert v == UnknownNameVerdict(detail) ==> exists k :: 1 <= k < |conditions| && ParseModelAttrib(conditions[k].0).Err? by {
            if v == UnknownNameVerdict(detail) {
              var k :| 0 <= k < |conditions[1..]| && ParseModelAttrib(conditions[1..][k].0).Err?;
              assert conditions[1..][k] == conditions[k + 1];
            }
          }
          v
  }

  /** The whole decision of `check`, with the audit records it writes.
      Every denial answers PERMISSION_DENIED and ends with one
      PERMISSION_DENIED record about this request; an allowed request and a
      panic write nothing. */
  function Decide(db: Storage, req: Request): (v: Verdict)
    ensures v.outcome.Allowed? || v.outcome.Panic? ==> v.log == []
    ensures v.outcome.Denied? ==>
      v.outcome.error == PermissionDenied && 1 <= |v.log| <= 2 &&
      v.log[|v.log| - 1] == AuditRecord(PermissionDenied, Detail(req)) &&
      forall r :: r in v.log ==> r.detail == Detail(req)
  {
    if req.userAgent.Some? && !VisibleAscii(req.userAgent.value) then Verdict(Panic(UserAgentNotVisibleAscii), [])
    else if !db.poolAvailable then Verdict(Panic(PoolUnavailable), [])
    else if req.accountId.None? then Verdict(Panic(MissingAccountId), [])
    else if req.path.controller.None? then Verdict(Panic(MissingController), [])
    else match Query(db, req)
      case Err(_) => DenyVerdict(Detail(req))
      case Ok((grants, conditions)) =>
        if |grants| == 0 then DenyVerdict(Detail(req))
        else if |conditions| == 0 then Verdict(Allowed, [])
        else match LoadModel(db, req)
          case Err(site) => Verdict(Panic(site), [])
          case Ok(model) => DecideConditions(conditions, model, SubjectOf(req.accountId), Detail(req))
  }

  /** The engine, holding the database; `auditLog` is the audit table as
      this controller's denials append to it. */
  class AuthZController {
    const db: Storage
    var auditLog: seq<AuditRecord>

    constructor (db: Storage)
      ensures this.db == db && auditLog == []
    {
      this.db := db;
      auditLog := [];
    }

    /** Appends one audit record. */
    method LogToDb(code: ErrorCode, detail: ErrorDetail)
      modifies this
      ensures auditLog == old(auditLog) + [AuditRecord(code, detail)]
    {
      auditLog := auditLog + [AuditRecord(code, detail)];
    }

    /** Decides one request, appending the audit records of a denial. */
    method Check(reqAddress: string, userAgent: Option<string>, uri: Uri, accountId: Option<U32>, path: ParsedPath, httpMethod: string)
      returns (outcome: CheckOutcome)
      modifies this
      ensures var v := Decide(db, Request(reqAddress, userAgent, uri, accountId, path, httpMethod));
        outcome == v.outcome && auditLog == old(auditLog) + v.log
    {
      ghost var req := Request(reqAddress, userAgent, uri, accountId, path, httpMethod);
      if userAgent.Some? && !VisibleAscii(userAgent.value) {
        return Panic(UserAgentNotVisibleAscii);
      }
      var errorDetail := ErrorDetail(uri.text, uri.path, reqAddress, userAgent);
      if !db.poolAvailable {
        return Panic(PoolUnavailable);
      }
      var calculatedAction := FromAuthZ(path, httpMethod);
      if accountId.None? {
        return Panic(MissingAccountId);
      }
      if path.controller.None? {
        return Panic(MissingController);
      }
      var selectResult := db.select(AsI32(accountId.value), path.controller.value, ActionName(calculatedAction));
      if selectResult.Err? {
        LogToDb(PermissionDenied, errorDetail);
        return Denied(PermissionDenied);
      }
      var (grants, conditions) := selectResult.value;
      if |grants| == 0 {
        LogToDb(PermissionDenied, errorDetail);
        return Denied(PermissionDenied);
      }
      if |conditions| == 0 {
        return Allowed;
      }
      if path.id.None? {
        return Panic(MissingResourceId);
      }
      var resourceId := ParseU32(path.id.value);
      if resourceId.None? {
        return Panic(ResourceIdNotU32);
      }
      var model := GetModel(db, path.controller.value, resourceId.value);
      if model.Err? {
        return Panic(model.error);
      }
      assert Decide(db, req) == DecideConditions(conditions, model.value, SubjectOf(accountId), errorDetail);
      for i := 0 to |conditions|
        invariant auditLog == old(auditLog)
        invariant DecideConditions(conditions[i..], model.value, SubjectOf(accountId), errorDetail) == Decide(db, req)
      {
        var (condName, condValue) := conditions[i];
        var modelAttr := ParseModelAttrib(condName);
        if modelAttr.Err? {
          LogToDb(modelAttr.error, errorDetail);
          LogToDb(PermissionDenied, errorDetail);
          return Denied(PermissionDenied);
        }
        var attr := ModelGetAttr(model.value, modelAttr.value);
        var innerSubject := SubjectOf(accountId);
        var result := Validate(FromModelAttrib(modelAttr.value), attr, innerSubject, condValue);
        if result {
          return Allowed;
        }
        assert conditions[i..][1..] == conditions[i + 1..];
      }
      LogToDb(PermissionDenied, errorDetail);
      return Denied(PermissionDenied);
    }
  }
}
