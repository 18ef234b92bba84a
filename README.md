# Attribute-based authorization engine of nq-api, in Dafny

This project models the authorization engine of nq-api (`src/authz.rs`). The engine decides whether an authenticated account may perform an action on a resource instance. It works in five steps:

1. It derives the action (create, edit, delete, view) from the HTTP method and from whether the path names an instance.
2. It looks up the grants stored for (account, resource type, action) and the conditions attached to them.
3. With no grant it denies. With a grant and no condition it allows.
4. Otherwise it loads the resource and walks the conditions in storage order. The first condition that validates allows. The first condition name that does not parse denies at once. Running out of conditions denies.
5. Every denial is written to an audit log.

Files:

- `wrappers.dfy`: `Option` and `Result`.
- `decimal.dfy`: the Rust integer primitives the engine depends on. These are the `u32` and `i32` widths, the `as i32` cast, `to_string()` and `str::parse::<u32>()`. It includes the round-trip and injectivity facts that turn the owner check's string comparison into a comparison of account ids.
- `authz.dfy`: the pure part of the engine. It covers the action resolver, action names, the condition-value and condition-name parsers, the `Owner` and `Login` validators and their dispatch, and `get_attr` for users and organizations.
- `authz_check.dfy`: the decision procedure `check` and the loader `get_model`.
  - `Decide` is a function from the storage and the request to a `Verdict`. A `Verdict` is the outcome (allowed, denied with an error code, or a panic at a named site) plus the audit records written, in order. `DecideConditions` is the condition walk.
  - The class `AuthZController` holds the storage and the audit log. Its method `Check` follows the source step by step, including a `for` loop with early returns, and is proved to produce exactly `Decide`'s outcome and to append exactly `Decide`'s records.
- `authz_check_properties.dfy`: what the decision guarantees. It characterises the condition walk by its first decisive condition. It proves that grants are necessary, that conditions are OR-combined, that an unknown name short-circuits to a denial, and that order is irrelevant while every name parses. It also includes the delete-an-organization scenario.

Storage is modelled as inputs (`Storage`):

- whether a pool connection is available;
- the grant queries, as a total function from (account id as `i32`, resource type, action name) to a selection or a failure;
- the user and organization loaders.

The source panics in several places. Each panic is an explicit outcome `Panic(site)`, not a precondition:

- `to_str().unwrap()` on the User-Agent header (src/authz.rs:95);
- `get().unwrap()` on the pool (:106);
- `account_id.unwrap()` (:114);
- `controller.unwrap()` (:115);
- `id.unwrap()` and `parse().unwrap()` (:155);
- `todo!()` for an unknown resource type (:214).

Some behaviours of the code are worth stating plainly, because a reader might expect otherwise:

- A request without an account id panics at src/authz.rs:114 before any grant is read. Anonymous requests are not denied. As a consequence, the login validator always sees a present subject (`AnonymousRequestPanics`, `LoggedInConditionAllows`).
- A failed grant or condition query is reported as `AUTHZ_PERMISSION_DENIED` and audited (src/authz.rs:133-136). It is not a distinct storage fault.
- An unparseable condition name writes two audit records: first `MODEL_ATTRIBUTE_NOT_DEFINED`, then `AUTHZ_PERMISSION_DENIED` (src/authz.rs:164-173). It does not write exactly one.
- An unknown resource type panics (`todo!()`, src/authz.rs:214). It is not reported as a typed fault.
- A path with a resource type but no id panics at src/authz.rs:155, and only when conditions have to be checked. A grant without conditions allows such a request.
- The owner validator accepts every literal other than "true" and "false" for a present subject (src/authz.rs:276-277). `OwnerValidate` states this, together with the fact that `ParseConditionValueType` rejects exactly those literals.
- The account id is cast `as i32` for the grant query (src/authz.rs:114). For the owner comparison it is rendered as a `u32` (:178). Both are modelled, in `Query` and `SubjectOf`.

## Model

| member | source | states |
|---|---|---|
| `Authz.FromAuthZ` | src/authz.rs:32-42 | With an id, POST is Edit and DELETE is Delete. Without an id, POST is Create. Every other combination, GET included, is View. Each case is stated in both directions. |
| `Authz.ActionName` | src/authz.rs:45-54 | Each action is stored under a non-empty lower-case name. |
| `Authz.ActionNameInjective` | src/authz.rs:45-54 | The four actions are stored under four distinct names. |
| `Authz.ParseConditionValueType` | src/authz.rs:226-238 | Succeeds exactly on "true" and "false". Any other literal gives AUTHZ_CONDITION_VALUE_NOT_DEFINED. |
| `Authz.GetValueType` | src/authz.rs:327-332 | Each validator declares the value type that both "true" and "false" parse to. |
| `Authz.ValueTypeLiterals` | src/authz.rs:327-332 | For either validator, a literal parses to that validator's declared value type exactly when it is "true" or "false". |
| `Authz.ParseModelAttrib` | src/authz.rs:353-365 | Succeeds exactly on "isOwner" and "isLoggedIn", and returns the attribute stored under that name. Any other name gives MODEL_ATTRIBUTE_NOT_DEFINED. |
| `Authz.ParseModelAttribRoundTrip` | src/authz.rs:357-363 | Each attribute is parsed back from its stored name. |
| `Authz.FromModelAttrib` | src/authz.rs:341-350 | Owner selects the owner validator and Login the login validator. |
| `Authz.OwnerValidate` | src/authz.rs:262-279 | Always false without a subject. True for a present subject whenever the literal is neither "true" nor "false", that is, whenever it is not a boolean value type. |
| `Authz.OwnerTrueFalseComplement` | src/authz.rs:272-278 | With a subject present, the "false" literal holds exactly when the "true" literal does not. |
| `Authz.OwnerMatchesAccount` | src/authz.rs:272-275 | Take a subject that is the decimal rendering of a u32 account. The "true" literal holds exactly when the attribute is that account. The "false" literal holds exactly when the attribute is absent or another account. |
| `Authz.LoginValidate` | src/authz.rs:291-298 | Holds exactly when a subject is present, whatever the attribute and literal. |
| `Authz.Validate` | src/authz.rs:315-325 | The login result checks subject presence. The owner result behaves as the owner validator. |
| `Authz.ConditionSemantics` | src/authz.rs:314-350 | A condition chosen from an attribute, stated over account ids: it needs a subject, and for Owner with "true" or "false" it needs the attribute to equal, or to differ from, the account. |
| `Authz.ValidatorExamples` | src/authz.rs:391-425 | The unit-test cases of both validators and of the attribute parser, plus further owner examples 7/"7" and 7/"9". |
| `Authz.UserGetAttr` | src/authz.rs:367-375 | For a user, Owner gives the user's account id and Login gives nothing. |
| `Authz.OrganizationGetAttr` | src/authz.rs:377-385 | For an organization, Owner gives the owning account id and Login gives nothing. |
| `Authz.ModelGetAttr` | src/authz.rs:367-385 | Every resource model has an Owner attribute and no Login attribute. |
| `Decimal.AsI32` | src/authz.rs:114 | `as i32` keeps the value modulo 2^32 within the i32 range. Ids below 2^31 are unchanged, and larger ones become negative. |
| `Decimal.NatToDecimal` | src/authz.rs:178 | `to_string()` of a non-negative number is a non-empty digit string. It starts with '0' only when it is exactly "0", so it has no leading zeros. |
| `Decimal.NatToDecimalRoundTrip` | src/authz.rs:178 | Reading the decimal rendering back gives the number. |
| `Decimal.IntToDecimal` | src/authz.rs:273-275 | The `i32` rendering starts with a minus sign exactly for negative numbers. |
| `Decimal.IntToDecimalInjective` | src/authz.rs:273-275 | Two integers render equal exactly when they are equal. |
| `Decimal.ParseU32` | src/authz.rs:155 | Strip one optional leading '+'. The parse succeeds exactly when what remains is a non-empty run of ASCII digits whose value is below 2^32, and it returns that value. Leading zeros are allowed. |
| `Decimal.ParseU32Examples` | src/authz.rs:155 | "17", "017" and "+17" all parse to 17. "-17", "" and "+" are rejected. |
| `Decimal.ParseU32RejectsOverflow` | src/authz.rs:155 | The decimal rendering of any number of 2^32 or more is rejected. |
| `Decimal.ParseU32RoundTrip` | src/authz.rs:155 | The rendering of every u32 parses back to it. |
| `AuthzCheck.SubjectOf` | src/authz.rs:178 | A subject is present exactly when the account id is, and it parses back to that id. |
| `AuthzCheck.GetModel` | src/authz.rs:198-218 | "user" and "organization" load the record for the id cast to i32. Their Owner attribute is that record's owner. Every other resource type is the unimplemented panic. |
| `AuthzCheck.LoadModel` | src/authz.rs:152-157 | A missing path id panics with MissingResourceId. An id that is not a u32 panics with ResourceIdNotU32. The load succeeds exactly when the id parses and the resource type is "user" or "organization". Its Owner attribute is the owner of the record loaded for the parsed id cast to i32. |
| `AuthzCheck.DecideConditions` | src/authz.rs:160-192 | The walk ends in one of three ways: allowed with no record, denied with one PERMISSION_DENIED record, or denied with the records MODEL_ATTRIBUTE_NOT_DEFINED then PERMISSION_DENIED. Allowing needs a condition that holds. The two-record denial needs a name that does not parse. |
| `AuthzCheck.Decide` | src/authz.rs:70-193 | Allowed and panicking checks write nothing. Every denial answers PERMISSION_DENIED and writes one or two records about this request, the last one being PERMISSION_DENIED. |
| `AuthzCheck.AuthZController.constructor` | src/authz.rs:62-66 | The controller holds the given storage, and its audit log starts empty. |
| `AuthzCheck.AuthZController.LogToDb` | src/authz.rs:134 | Appends exactly one audit record and changes nothing else. |
| `AuthzCheck.AuthZController.Check` | src/authz.rs:70-193 | Returns `Decide`'s outcome and appends exactly `Decide`'s records to the audit log. |
| `AuthzCheckProperties.FirstDecisive` | src/authz.rs:160-189 | Gives the index of the first condition that holds or whose name does not parse. Every condition before it parses and fails. |
| `AuthzCheckProperties.DecideConditionsByFirstDecisive` | src/authz.rs:160-192 | The walk is decided by the first decisive condition: it allows if that condition holds, gives the two-record denial if its name does not parse, and gives the one-record denial if there is none. |
| `AuthzCheckProperties.FirstValidatingConditionAllows` | src/authz.rs:176-188 | A validating condition reached after conditions that parsed and failed allows, with no audit record. |
| `AuthzCheckProperties.UnknownNameDenies` | src/authz.rs:161-174 | An unparseable name reached before any success denies with two records, whatever later conditions would say. |
| `AuthzCheckProperties.NoConditionHoldsDenies` | src/authz.rs:191-192 | If every condition parses and fails, the walk denies with one record. |
| `AuthzCheckProperties.AllowedMeansValidatedAfterParsedPrefix` | src/authz.rs:160-188 | An allowed walk has a prefix of parsed, failing conditions followed by one that validated. |
| `AuthzCheckProperties.ConditionsCombineWithOr` | src/authz.rs:160-192 | While every name parses, the walk allows exactly when some condition holds. Otherwise it denies with one record. |
| `AuthzCheckProperties.ConditionOrderIrrelevant` | src/authz.rs:160-192 | While every name parses, any reordering of the conditions gives the same verdict. |
| `AuthzCheckProperties.NoGrantDenies` | src/authz.rs:133-141 | A failed query or an empty grant list denies with exactly one PERMISSION_DENIED record. |
| `AuthzCheckProperties.GrantWithoutConditionsAllows` | src/authz.rs:143-147 | A grant without conditions allows and writes nothing. |
| `AuthzCheckProperties.AllowedRequiresGrant` | src/authz.rs:133-188 | An allowed request had a successful query and a grant. Either it had no conditions, or a condition validated after a prefix of parsed, failing ones. |
| `AuthzCheckProperties.AnonymousRequestPanics` | src/authz.rs:114 | A request without an account id panics before any grant is read and writes nothing. |
| `AuthzCheckProperties.LoggedInConditionAllows` | src/authz.rs:176-188 | An "isLoggedIn" condition reached after parsed, failing conditions always allows, because the subject is present by then. |
| `AuthzCheckProperties.OrganizationOwnerScenario` | src/authz.rs:152-188 | Account 42 holds a delete grant on organizations with condition isOwner/"true". It may delete organization 17 exactly when it owns that organization. |

## Left out

- Diesel queries, the connection pool, `web::block` and async/await (src/authz.rs:106-131, 198-218) are storage I/O and thread offloading. The model reads them as inputs: pool availability, a total query function, and total user and organization loaders. `User::from_id` and `Organization::from_id` are not part of this model, so the loaders cannot fail in it.
- A panic of `web::block(...).await.unwrap()` that is caused by the blocking pool rather than by the closure is not modelled.
- The `RouterErrorDetail` builder and the header map are modelled only as far as the audit record uses them. The model keeps the URI text and path, the remote address and the User-Agent value. Case-insensitive header lookup belongs to the framework, and the model takes the looked-up value as input.
- `log_to_db` transport is modelled only as an append to the audit log. Whether the write itself succeeds is not modelled.
- `ConditionValueType::try_from` is modelled on its own. `check` never calls it, so no condition literal is rejected by the engine.
- The authentication middleware (authN/src/middleware.rs), the router handlers, the permission DTOs and the integration tests hold no decision logic and are not modelled.
