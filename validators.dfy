/**
 * Request-body schemas and `validate_data` (app/models/validators.py).
 * A body is a JSON object whose values are strings, `null` or anything
 * else; each schema is the list of its fields in declaration order. The
 * `EmailStr` format check is not modelled: it is the parameter `isEmail`.
 */
module Validators {
  import opened Wrappers
  import PyText

  datatype Value = Str(text: string) | Null | OtherJson

  /** What `validation_class(**data)` is given: a mapping, or something `**` cannot unpack. */
  datatype Input = Mapping(fields: map<string, Value>) | NotMapping

  datatype FieldKind = Text | EmailText

  /**
   * One pydantic field. A field that is not `required` is `Optional[...]`
   * with default `None`: it may be absent or `null`.
   */
  datatype FieldSpec = FieldSpec(name: string, kind: FieldKind, required: bool, minLength: nat, maxLength: Option<nat>)

  /** `UserBase`: username (3 to 50 characters), email, optional full_name. */
  const USER_BASE: seq<FieldSpec> := [
    FieldSpec("username", Text, true, 3, Some(50)),
    FieldSpec("email", EmailText, true, 0, None),
    FieldSpec("full_name", Text, false, 0, None)
  ]

  /** `UserCreate`: `UserBase` plus a password of at least 8 characters. */
  const USER_CREATE: seq<FieldSpec> := USER_BASE + [FieldSpec("password", Text, true, 8, None)]

  /** `NewNoteCreate`: optional header of at most 50 characters, required body. */
  const NEW_NOTE_CREATE: seq<FieldSpec> := [
    FieldSpec("header", Text, false, 0, Some(50)),
    FieldSpec("body", Text, true, 0, None)
  ]

  /** A string meets the field's length bounds and format. */
  predicate TextOk(spec: FieldSpec, s: string, isEmail: string -> bool) {
    spec.minLength <= |s|
    && (spec.maxLength.Some? ==> |s| <= spec.maxLength.value)
    && (spec.kind == EmailText ==> isEmail(s))
  }

  /** The field validates against the body. */
  predicate FieldValid(spec: FieldSpec, fields: map<string, Value>, isEmail: string -> bool) {
    if spec.name !in fields then !spec.required
    else match fields[spec.name]
      case Null => !spec.required
      case OtherJson => false
      case Str(s) => TextOk(spec, s, isEmail)
  }

  /** `[e['loc'][-1] for e in errors]`: the names of the fields that fail, in declaration order. */
  function FailingFields(schema: seq<FieldSpec>, fields: map<string, Value>, isEmail: string -> bool): (r: seq<string>)
    ensures |r| <= |schema|
    ensures r == [] <==> forall i | 0 <= i < |schema| :: FieldValid(schema[i], fields, isEmail)
    ensures forall x :: x in r <==> exists i | 0 <= i < |schema| :: schema[i].name == x && !FieldValid(schema[i], fields, isEmail)
  {
    if schema == [] then []
    else
      var rest := FailingFields(schema[1..], fields, isEmail);
      assert forall i | 1 <= i < |schema| :: schema[i] == schema[1..][i - 1];
      if FieldValid(schema[0], fields, isEmail) then rest else [schema[0].name] + rest
  }

  datatype Verdict = Passed | Refused(status: int, detail: string)

  /** `validate_data(data, validation_class)`: nothing raised, or the 400 it raises. */
  function ValidateData(data: Input, schema: seq<FieldSpec>, isEmail: string -> bool): (r: Verdict)
    ensures r.Passed? <==> data.Mapping? && forall i | 0 <= i < |schema| :: FieldValid(schema[i], data.fields, isEmail)
    ensures data.NotMapping? ==> r == Refused(400, "NotJSONFormat")
    ensures r.Refused? && data.Mapping? ==>
      r == Refused(400, "ParameterError " + PyText.ListRepr(FailingFields(schema, data.fields, isEmail)))
  {
    match data
    case NotMapping => Refused(400, "NotJSONFormat")
    case Mapping(fields) =>
      var miss := FailingFields(schema, fields, isEmail);
      if miss == [] then Passed else Refused(400, "ParameterError " + PyText.ListRepr(miss))
  }

  /** The constraints `UserCreate` puts on a registration. */
  predicate ValidUserCreate(username: string, email: string, password: string, isEmail: string -> bool) {
    3 <= |username| <= 50 && isEmail(email) && |password| >= 8
  }

  /** The body a registration form produces; `full_name` is left out when not given. */
  function UserCreateBody(username: string, email: string, fullName: Option<string>, password: string): map<string, Value> {
    var base := map["username" := Str(username), "email" := Str(email), "password" := Str(password)];
    if fullName.Some? then base["full_name" := Str(fullName.value)] else base
  }

  /** A registration body validates exactly when username, email and password meet their constraints. */
  lemma UserCreateAccepts(username: string, email: string, fullName: Option<string>, password: string, isEmail: string -> bool)
    ensures ValidateData(Mapping(UserCreateBody(username, email, fullName, password)), USER_CREATE, isEmail).Passed?
        <==> ValidUserCreate(username, email, password, isEmail)
  {
    var fields := UserCreateBody(username, email, fullName, password);
    assert FieldValid(USER_CREATE[0], fields, isEmail) <==> 3 <= |username| <= 50;
    assert FieldValid(USER_CREATE[1], fields, isEmail) <==> isEmail(email);
    assert FieldValid(USER_CREATE[2], fields, isEmail);
    assert FieldValid(USER_CREATE[3], fields, isEmail) <==> |password| >= 8;
  }

  /** A short password is reported by name. */
  lemma ShortPasswordReported(username: string, email: string, password: string, isEmail: string -> bool)
    requires 3 <= |username| <= 50 && isEmail(email) && |password| < 8
    ensures ValidateData(Mapping(UserCreateBody(username, email, None, password)), USER_CREATE, isEmail)
         == Refused(400, "ParameterError ['password']")
  {
    var fields := UserCreateBody(username, email, None, password);
    assert FieldValid(USER_CREATE[0], fields, isEmail);
    assert FieldValid(USER_CREATE[1], fields, isEmail);
    assert FieldValid(USER_CREATE[2], fields, isEmail);
    assert !FieldValid(USER_CREATE[3], fields, isEmail);
    var s := USER_CREATE;
    assert s[3..][1..] == [];
    assert FailingFields(s[3..], fields, isEmail) == ["password"];
    assert s[2..][1..] == s[3..];
    assert FailingFields(s[2..], fields, isEmail) == ["password"];
    assert s[1..][1..] == s[2..];
    assert FailingFields(s[1..], fields, isEmail) == ["password"];
  }

  /** `full_name` may be absent or `null`; it never makes a registration fail. */
  lemma FullNameOptional(fields: map<string, Value>, isEmail: string -> bool)
    requires "full_name" !in fields || fields["full_name"] == Null
    ensures FieldValid(USER_CREATE[2], fields, isEmail)
  {
  }

  /** A note body validates exactly when a body string is present and the header, if any, has at most 50 characters. */
  lemma NewNoteAccepts(fields: map<string, Value>, isEmail: string -> bool)
    ensures ValidateData(Mapping(fields), NEW_NOTE_CREATE, isEmail).Passed?
        <==> && "body" in fields && fields["body"].Str?
             && ("header" in fields ==> fields["header"].Null? || (fields["header"].Str? && |fields["header"].text| <= 50))
  {
    assert FieldValid(NEW_NOTE_CREATE[1], fields, isEmail) <==> "body" in fields && fields["body"].Str?;
  }
}
