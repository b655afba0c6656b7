/** The concrete rules for user create and update requests: non-blank
    names, a loosely shaped e-mail and a password of at least six
    characters. */
module UserValidator {
  import opened Common
  import opened Validate

  /** `/\S+@\S+\.\S+/` matches with its `@` at `at` and its `.` at `dot`:
      a non-space character before the `@`, a non-empty run of non-space
      characters between them, and a non-space character after the `.`. */
  predicate LooseEmailAt(s: string, at: nat, dot: nat)
  {
    && 0 < at && at + 1 < dot && dot + 1 < |s|
    && s[at] == '@' && s[dot] == '.'
    && !IsSpace(s[at - 1]) && !IsSpace(s[dot + 1])
    && forall k :: at < k < dot ==> !IsSpace(s[k])
  }

  /** `/\S+@\S+\.\S+/.test(s)`: the unanchored pattern matches somewhere. */
  predicate LooseEmail(s: string)
  {
    exists at: nat, dot: nat | at < |s| && dot < |s| :: LooseEmailAt(s, at, dot)
  }

  /** `typeof value === 'string' && value.trim().length > 0` */
  predicate NonBlankString(v: JsValue)
  {
    v.JsString? && |Trim(v.s)| > 0
  }

  /** `typeof value === 'string' && /\S+@\S+\.\S+/.test(value)` */
  predicate EmailString(v: JsValue)
  {
    v.JsString? && LooseEmail(v.s)
  }

  /** `typeof value === 'string' && value.length >= 6`, the length in
      UTF-16 code units. */
  predicate PasswordString(v: JsValue)
  {
    v.JsString? && JsLength(v.s) >= 6
  }

  /** A rule that passes exactly the values satisfying `ok` and otherwise
      answers `msg`. */
  function Check(ok: JsValue -> bool, msg: string): (rule: Rule)
    ensures forall v :: rule(v) == (if ok(v) then None else Some(msg))
  {
    v => if ok(v) then None else Some(msg)
  }

  /** The rules object of `validateUserCreate`. */
  function CreateRules(): (r: seq<FieldRules>)
    ensures DistinctKeys(r)
  {
    [ FieldRules("firstName", [Check(NonBlankString, "First name is required.")]),
      FieldRules("lastName", [Check(NonBlankString, "Last name is required.")]),
      FieldRules("email", [Check(EmailString, "Invalid email format.")]),
      FieldRules("password", [Check(PasswordString, "Password must be at least 6 characters long.")]) ]
  }

  /** The rules object of `validateUserUpdate`. */
  function UpdateRules(): (r: seq<FieldRules>)
    ensures DistinctKeys(r)
  {
    [ FieldRules("firstName", [Check(NonBlankString, "First name cannot be empty.")]),
      FieldRules("lastName", [Check(NonBlankString, "Last name cannot be empty.")]),
      FieldRules("email", [Check(EmailString, "Invalid email format.")]),
      FieldRules("password", [Check(PasswordString, "Password must be at least 6 characters long.")]) ]
  }

  /** A name passes exactly when it is a string holding a character that is
      not white space. */
  lemma NameRuleIff(v: JsValue)
    ensures NonBlankString(v) <==> v.JsString? && exists i :: 0 <= i < |v.s| && !IsSpace(v.s[i])
  {
    if v.JsString? {
      BlankIffAllSpace(v.s);
    }
  }

  /** Every rule of both validators rejects a value that is not a string. */
  lemma NonStringsFailEveryRule(v: JsValue)
    requires !v.JsString?
    ensures forall i, k :: 0 <= i < |CreateRules()| && 0 <= k < |CreateRules()[i].rules| ==> CreateRules()[i].rules[k](v).Some?
    ensures forall i, k :: 0 <= i < |UpdateRules()| && 0 <= k < |UpdateRules()[i].rules| ==> UpdateRules()[i].rules[k](v).Some?
  {
  }

  /** The two validators check the same keys with the same predicates; only
      the messages of the name rules differ. */
  lemma CreateAndUpdateAgree(v: JsValue)
    ensures |CreateRules()| == |UpdateRules()|
    ensures forall i :: 0 <= i < |CreateRules()| ==>
      && CreateRules()[i].key == UpdateRules()[i].key
      && |CreateRules()[i].rules| == |UpdateRules()[i].rules| == 1
      && (CreateRules()[i].rules[0](v).None? <==> UpdateRules()[i].rules[0](v).None?)
  {
  }

  /** With one rule per field, a field gets at most one message, and it gets
      one exactly when its single rule fails. */
  lemma OneMessagePerField(body: map<string, JsValue>, i: nat)
    requires i < |CreateRules()|
    ensures var e := Errors(CreateRules(), body);
      var f := CreateRules()[i];
      (f.key in e ==> |e[f.key]| == 1)
      && (f.key in e <==> Lookup(body, f.key) != Undefined && f.rules[0](Lookup(body, f.key)).Some?)
  {
    var f := CreateRules()[i];
    ErrorsCharacterized(CreateRules(), body, i);
    assert f.rules[..0] == [];
    assert f.rules[..|f.rules| - 1] == [];
  }

  /** A create request that omits every field passes the create validator:
      absent fields are skipped, so required fields are not enforced here. */
  lemma CreateValidatorAcceptsEmptyBody()
    ensures Decide(Errors(CreateRules(), map[])) == Next
  {
    EmptyBodyPasses(CreateRules());
  }

  /** The password rule of both validators passes exactly the strings of at
      least six UTF-16 code units: every string of six characters or more,
      none of fewer than three, and between the two it depends on how many
      characters lie outside the Basic Multilingual Plane. */
  lemma PasswordRuleIff(v: JsValue)
    ensures CreateRules()[3].rules[0](v).None? <==> v.JsString? && JsLength(v.s) >= 6
    ensures UpdateRules()[3].rules[0](v).None? <==> v.JsString? && JsLength(v.s) >= 6
    ensures v.JsString? && |v.s| >= 6 ==> CreateRules()[3].rules[0](v).None?
    ensures v.JsString? && |v.s| < 3 ==> CreateRules()[3].rules[0](v).Some?
  {
  }

  /** Three emoji make a password of length six in JavaScript, which both
      validators accept. */
  lemma ThreeEmojiPasswordAccepted()
    ensures |"\U{1F600}\U{1F600}\U{1F600}"| == 3
    ensures JsLength("\U{1F600}\U{1F600}\U{1F600}") == 6
    ensures PasswordString(JsString("\U{1F600}\U{1F600}\U{1F600}"))
  {
    var s := "\U{1F600}\U{1F600}\U{1F600}";
    assert s[1..][1..][1..] == [];
    assert JsLength(s[1..][1..]) == 2;
  }

  /** A short password is rejected by both validators with the same message. */
  lemma ShortPasswordRejected(p: string)
    requires JsLength(p) < 6
    ensures var body := map["password" := JsString(p)];
      Errors(CreateRules(), body) == map["password" := ["Password must be at least 6 characters long."]]
      && Errors(UpdateRules(), body) == map["password" := ["Password must be at least 6 characters long."]]
  {
    var body := map["password" := JsString(p)];
    UndefinedFieldsPass(CreateRules()[..3], body);
    UndefinedFieldsPass(UpdateRules()[..3], body);
    assert CreateRules()[..4][..3] == CreateRules()[..3];
    assert UpdateRules()[..4][..3] == UpdateRules()[..3];
    assert CreateRules()[..4] == CreateRules();
    assert UpdateRules()[..4] == UpdateRules();
    var rule := CreateRules()[3].rules;
    assert rule[..0] == [];
    assert FailingMessages(rule, JsString(p)) == ["Password must be at least 6 characters long."];
  }
}
