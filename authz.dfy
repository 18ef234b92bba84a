/** The pure part of the attribute-based authorization engine: the action a
    request asks for, the closed sets of condition names and condition
    values, the condition validators, and the attribute lookup of each
    resource model. */
module Authz {
  import opened Wrappers
  import opened Decimal

  /** The route split by the router: resource type and optional instance id. */
  datatype ParsedPath = ParsedPath(controller: Option<string>, id: Option<string>)

  /** The action a request performs on a controller. */
  datatype Action = Create | Edit | Delete | View

  /** The action of a request, from whether the path names an instance and
      from the HTTP method; every other combination reads as View. */
  function FromAuthZ(path: ParsedPath, httpMethod: string): (a: Action)
    ensures a == Create <==> path.id.None? && httpMethod == "POST"
    ensures a == Edit <==> path.id.Some? && httpMethod == "POST"
    ensures a == Delete <==> path.id.Some? && httpMethod == "DELETE"
    ensures a == View <==> httpMethod != "POST" && (httpMethod != "DELETE" || path.id.None?)
  {
    match (path.id, httpMethod)
    case (Some(_), "GET") => View
    case (None, "POST") => Create
    case (Some(_), "POST") => Edit
    case (Some(_), "DELETE") => Delete
    case (None, _) => View
    case (Some(_), _) => View
  }

  /** The name under which grants store an action. */
  function ActionName(a: Action): (s: string)
    ensures 0 < |s| && forall i :: 0 <= i < |s| ==> 'a' <= s[i] <= 'z'
  {
    match a
    case Create => "create"
    case Edit => "edit"
    case Delete => "delete"
    case View => "view"
  }

  /** Distinct actions are stored under distinct names, so a grant for one
      action never matches a request for another. */
  lemma ActionNameInjective(a: Action, b: Action)
    ensures ActionName(a) == ActionName(b) <==> a == b
  {
  }

  /** The predefined errors the engine raises. */
  datatype ErrorCode = PermissionDenied | ModelAttributeNotDefined | ConditionValueNotDefined {
    function Name(): string {
      match this
      case PermissionDenied => "AUTHZ_PERMISSION_DENIED"
      case ModelAttributeNotDefined => "MODEL_ATTRIBUTE_NOT_DEFINED"
      case ConditionValueNotDefined => "AUTHZ_CONDITION_VALUE_NOT_DEFINED"
    }
  }

  /** The kinds of literal a condition may carry; only booleans so far. */
  datatype ConditionValueType = Boolean

  /** Reads the kind of a condition literal: exactly "true" and "false" are booleans. */
  function ParseConditionValueType(value: string): (r: Result<ConditionValueType, ErrorCode>)
    ensures r.Ok? <==> value == "true" || value == "false"
    ensures r.Err? ==> r.error == ConditionValueNotDefined
  {
    match value
    case "true" => Ok(Boolean)
    case "false" => Ok(Boolean)
    case _ => Err(ConditionValueNotDefined)
  }

  /** The attributes a condition can be about. */
  datatype ModelAttrib = Owner | Login

  /** The stored name of each attribute. */
  function AttribName(a: ModelAttrib): string {
    match a
    case Owner => "isOwner"
    case Login => "isLoggedIn"
  }

  /** Reads a stored condition name; every name but the two known ones is an error. */
  function ParseModelAttrib(name: string): (r: Result<ModelAttrib, ErrorCode>)
    ensures r.Ok? <==> name == "isOwner" || name == "isLoggedIn"
    ensures r.Ok? ==> AttribName(r.value) == name
    ensures r.Err? ==> r.error == ModelAttributeNotDefined
  {
    match name
    case "isOwner" => Ok(Owner)
    case "isLoggedIn" => Ok(Login)
    case _ => Err(ModelAttributeNotDefined)
  }

  /** Every attribute is read back from its stored name. */
  lemma ParseModelAttribRoundTrip(a: ModelAttrib)
    ensures ParseModelAttrib(AttribName(a)) == Ok(a)
  {
  }

  /** The validator chosen for an attribute. */
  datatype ModelAttribResult = OwnerResult | LoginResult

  function FromModelAttrib(a: ModelAttrib): (r: ModelAttribResult)
    ensures r.OwnerResult? <==> a == Owner
    ensures r.LoginResult? <==> a == Login
  {
    match a
    case Owner => OwnerResult
    case Login => LoginResult
  }

  /** Whether the subject owns the resource: with literal "true" the owning
      account's decimal rendering must equal the subject, with "false" it
      must not; any other literal lets every present subject through. */
  function OwnerValidate(attr: Option<I32>, subject: Option<string>, conditionValue: string): (ok: bool)
    ensures subject.None? ==> !ok
    ensures subject.Some? && ParseConditionValueType(conditionValue).Err? ==> ok
  {
    if subject.None? then false
    else if conditionValue == "true" then attr.Some? && subject.value == IntToDecimal(attr.value)
    else if conditionValue == "false" then attr.None? || subject.value != IntToDecimal(attr.value)
    else true
  }

  /** Whether a subject is logged in; the attribute and the literal play no part. */
  function LoginValidate(attr: Option<I32>, subject: Option<string>, conditionValue: string): (ok: bool)
    ensures ok <==> subject.Some?
  {
    subject.Some?
  }

  /** Runs the validator a condition name selected. */
  function Validate(v: ModelAttribResult, attr: Option<I32>, subject: Option<string>, conditionValue: string): (ok: bool)
    ensures v.LoginResult? ==> (ok <==> subject.Some?)
    ensures v.OwnerResult? ==> ok == OwnerValidate(attr, subject, conditionValue)
  {
    match v
    case OwnerResult => OwnerValidate(attr, subject, conditionValue)
    case LoginResult => LoginValidate(attr, subject, conditionValue)
  }

  /** The kind of literal each validator expects. */
  function GetValueType(v: ModelAttribResult): (t: ConditionValueType)
    ensures ParseConditionValueType("true") == Ok(t) && ParseConditionValueType("false") == Ok(t)
  {
    match v
    case OwnerResult => Boolean
    case LoginResult => Boolean
  }

  /** The literals a validator declares it expects are exactly those
      `ParseConditionValueType` accepts. */
  lemma ValueTypeLiterals(v: ModelAttribResult, value: string)
    ensures ParseConditionValueType(value) == Ok(GetValueType(v)) <==> value == "true" || value == "false"
  {
  }

  /** With a subject present, "false" holds exactly when "true" does not. */
  lemma OwnerTrueFalseComplement(attr: Option<I32>, subject: string)
    ensures OwnerValidate(attr, Some(subject), "false") == !OwnerValidate(attr, Some(subject), "true")
  {
  }

  /** For a subject that is the rendering of a `u32` account id, the "true"
      owner condition holds exactly when the owning account is that id, and
      the "false" one exactly when it is another account or none. */
  lemma OwnerMatchesAccount(attr: Option<I32>, account: U32)
    ensures OwnerValidate(attr, Some(NatToDecimal(account)), "true") <==> attr == Some(account)
    ensures OwnerValidate(attr, Some(NatToDecimal(account)), "false") <==> attr != Some(account)
  {
    if attr.Some? {
      assert IntToDecimal(account) == NatToDecimal(account);
      IntToDecimalInjective(attr.value, account);
    }
  }

  /** A condition on the owner attribute, in terms of accounts rather than
      strings; a login condition holds for every present subject. */
  lemma ConditionSemantics(a: ModelAttrib, attr: Option<I32>, account: Option<U32>, conditionValue: string)
    ensures var subject := if account.Some? then Some(NatToDecimal(account.value)) else None;
      Validate(FromModelAttrib(a), attr, subject, conditionValue) <==>
        account.Some? &&
        (a == Owner && conditionValue == "true" ==> attr == Some(account.value)) &&
        (a == Owner && conditionValue == "false" ==> attr != Some(account.value))
  {
    if account.Some? {
      OwnerMatchesAccount(attr, account.value);
    }
  }

  /** The cases the source's unit tests pin, plus further owner examples. */
  lemma ValidatorExamples()
    ensures LoginValidate(None, Some("user"), "")
    ensures !LoginValidate(None, None, "")
    ensures OwnerValidate(None, Some("user"), "")
    ensures !OwnerValidate(None, None, "")
    ensures OwnerValidate(Some(1), Some("1"), "true")
    ensures OwnerValidate(Some(7), Some("7"), "true")
    ensures !OwnerValidate(Some(7), Some("9"), "true")
    ensures OwnerValidate(None, Some("x"), "false")
    ensures !OwnerValidate(Some(7), Some("7"), "false")
    ensures ParseModelAttrib("isOwner") == Ok(Owner)
    ensures ParseModelAttrib("isLoggedIn") == Ok(Login)
  {
    assert IntToDecimal(1) == "1";
    assert IntToDecimal(7) == "7";
  }

  /** A user record; only the account it belongs to matters here. */
  datatype User = User(accountId: I32)

  /** An organization record; only its owning account matters here. */
  datatype Organization = Organization(ownerAccountId: I32)

  function UserGetAttr(user: User, name: ModelAttrib): (r: Option<I32>)
    ensures name == Owner ==> r == Some(user.accountId)
    ensures name == Login ==> r == None
  {
    match name
    case Owner => Some(user.accountId)
    case Login => None
  }

  function OrganizationGetAttr(org: Organization, name: ModelAttrib): (r: Option<I32>)
    ensures name == Owner ==> r == Some(org.ownerAccountId)
    ensures name == Login ==> r == None
  {
    match name
    case Owner => Some(org.ownerAccountId)
    case Login => None
  }

  /** The resource a condition is checked against, with its attribute lookup. */
  datatype ResourceModel = UserModel(user: User) | OrganizationModel(organization: Organization)

  function ModelGetAttr(model: ResourceModel, name: ModelAttrib): (r: Option<I32>)
    ensures r.Some? <==> name == Owner
  {
    match model
    case UserModel(u) => UserGetAttr(u, name)
    case OrganizationModel(o) => OrganizationGetAttr(o, name)
  }
}
