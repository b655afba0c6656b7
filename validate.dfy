/** The generic request-body validator: for each field that has rules and a
    defined value, run every rule of that field and collect the failing
    messages; answer 400 with them, or pass the request on. */
module Validate {
  import opened Common

  /** A request-body value as the rules see it. */
  datatype JsValue =
    | Undefined
    | JsString(s: string)
    | JsOther            // a number, boolean, null, array or object

  /** A rule answers `None` (the JavaScript `true`) or an error message. */
  type Rule = JsValue -> Option<string>

  /** The rules of one field, in the order they are declared. */
  datatype FieldRules = FieldRules(key: string, rules: seq<Rule>)

  /** The validator's decision. */
  datatype Outcome =
    | BadRequest(errors: map<string, seq<string>>)   // 400 with `{errors}`
    | Next                                           // `next()`

  /** The keys of a rules object are distinct. */
  predicate DistinctKeys(fields: seq<FieldRules>)
  {
    forall i, j :: 0 <= i < j < |fields| ==> fields[i].key != fields[j].key
  }

  /** The body value of `key`; an absent key reads as undefined. */
  function Lookup(body: map<string, JsValue>, key: string): JsValue
  {
    if key in body then body[key] else Undefined
  }

  /** The messages of the failing rules, in rule order. */
  function FailingMessages(rules: seq<Rule>, v: JsValue): (msgs: seq<string>)
    ensures |msgs| <= |rules|
    ensures msgs == [] <==> forall k :: 0 <= k < |rules| ==> rules[k](v).None?
  {
    if rules == [] then []
    else
      var front := FailingMessages(rules[..|rules| - 1], v);
      var last := rules[|rules| - 1](v);
      assert forall k :: 0 <= k < |rules| - 1 ==> rules[..|rules| - 1][k] == rules[k];
      if last.Some? then front + [last.value] else front
  }

  /** The errors object the validator builds from the first fields. */
  function Errors(fields: seq<FieldRules>, body: map<string, JsValue>): (e: map<string, seq<string>>)
    ensures forall k :: k in e ==> exists i :: 0 <= i < |fields| && fields[i].key == k
  {
    if fields == [] then map[]
    else
      var f := fields[|fields| - 1];
      var rest := Errors(fields[..|fields| - 1], body);
      var v := Lookup(body, f.key);
      var msgs := FailingMessages(f.rules, v);
      if v == Undefined || msgs == [] then rest else rest[f.key := msgs]
  }

  /** A key is in the errors exactly when it has rules, a defined value and
      a failing rule, and it then lists that field's failing messages. */
  lemma {:induction false} ErrorsCharacterized(fields: seq<FieldRules>, body: map<string, JsValue>, i: nat)
    requires DistinctKeys(fields) && i < |fields|
    ensures fields[i].key in Errors(fields, body) <==>
      Lookup(body, fields[i].key) != Undefined && FailingMessages(fields[i].rules, Lookup(body, fields[i].key)) != []
    ensures fields[i].key in Errors(fields, body) ==>
      Errors(fields, body)[fields[i].key] == FailingMessages(fields[i].rules, Lookup(body, fields[i].key))
  {
    var n := |fields| - 1;
    var front := fields[..n];
    if i < n {
      assert front[i] == fields[i];
      ErrorsCharacterized(front, body, i);
      assert fields[n].key != fields[i].key;
    } else {
      KeyNotYetListed(fields, body, i);
    }
  }

  /** A field's key is not among the errors of the fields before it. */
  lemma KeyNotYetListed(fields: seq<FieldRules>, body: map<string, JsValue>, i: nat)
    requires DistinctKeys(fields) && i < |fields|
    ensures fields[i].key !in Errors(fields[..i], body)
  {
    forall j | 0 <= j < i
      ensures fields[..i][j].key != fields[i].key
    {
    }
  }

  /** No field is listed with an empty list of messages. */
  lemma {:induction false} NoEmptyErrorLists(fields: seq<FieldRules>, body: map<string, JsValue>)
    ensures forall k :: k in Errors(fields, body) ==> Errors(fields, body)[k] != []
  {
    if fields != [] {
      NoEmptyErrorLists(fields[..|fields| - 1], body);
    }
  }

  /** Body keys without rules are never inspected: two bodies that agree on
      the keys with rules give the same errors. */
  lemma {:induction false} OnlyRuledKeysInspected(fields: seq<FieldRules>, body1: map<string, JsValue>, body2: map<string, JsValue>)
    requires forall i :: 0 <= i < |fields| ==> Lookup(body1, fields[i].key) == Lookup(body2, fields[i].key)
    ensures Errors(fields, body1) == Errors(fields, body2)
  {
    if fields != [] {
      var front := fields[..|fields| - 1];
      assert forall i :: 0 <= i < |front| ==> front[i] == fields[i];
      OnlyRuledKeysInspected(front, body1, body2);
    }
  }

  /** A body with no defined value under any ruled key gets no errors. */
  lemma {:induction false} UndefinedFieldsPass(fields: seq<FieldRules>, body: map<string, JsValue>)
    requires forall i :: 0 <= i < |fields| ==> Lookup(body, fields[i].key) == Undefined
    ensures Errors(fields, body) == map[]
  {
    if fields != [] {
      var front := fields[..|fields| - 1];
      assert forall i :: 0 <= i < |front| ==> front[i] == fields[i];
      UndefinedFieldsPass(front, body);
    }
  }

  /** The decision on a finished errors object. */
  function Decide(errors: map<string, seq<string>>): (o: Outcome)
    ensures o.BadRequest? <==> errors != map[]
    ensures o.BadRequest? ==> o.errors == errors
  {
    if |errors.Keys| > 0 then BadRequest(errors) else Next
  }

  /** One more field extends the errors object by that field's entry. */
  lemma ErrorsStep(fields: seq<FieldRules>, body: map<string, JsValue>, i: nat)
    requires i < |fields|
    ensures var v := Lookup(body, fields[i].key);
      var msgs := FailingMessages(fields[i].rules, v);
      Errors(fields[..i + 1], body) ==
        if v == Undefined || msgs == [] then Errors(fields[..i], body)
        else Errors(fields[..i], body)[fields[i].key := msgs]
  {
    assert fields[..i + 1][..i] == fields[..i];
  }

  /** One more rule appends its message when it fails. */
  lemma FailingStep(rules: seq<Rule>, j: nat, v: JsValue)
    requires j < |rules|
    ensures FailingMessages(rules[..j + 1], v) ==
      FailingMessages(rules[..j], v) + (if rules[j](v).Some? then [rules[j](v).value] else [])
  {
    assert rules[..j + 1][..j] == rules[..j];
  }

  /** The inner loop of `validate`: run each rule of one field on its value
      and push every failing message onto that field's list, creating the
      list on the first failure. */
  method PushFailures(errors: map<string, seq<string>>, key: string, rules: seq<Rule>, value: JsValue)
    returns (updated: map<string, seq<string>>)
    requires key !in errors
    ensures var msgs := FailingMessages(rules, value);
      updated == if msgs == [] then errors else errors[key := msgs]
  {
    updated := errors;
    ghost var msgs: seq<string> := [];
    var j := 0;
    while j < |rules|
      invariant 0 <= j <= |rules|
      invariant msgs == FailingMessages(rules[..j], value)
      invariant updated == if msgs == [] then errors else errors[key := msgs]
    {
      FailingStep(rules, j, value);
      var result := rules[j](value);
      if result.Some? {
        if key !in updated {
          updated := updated[key := []];
        }
        updated := updated[key := updated[key] + [result.value]];
        msgs := msgs + [result.value];
      }
      j := j + 1;
    }
    assert rules[..j] == rules;
  }

  /** `validate(rules)` applied to a request body: the loops build the
      errors object in place, then the final branch decides. */
  method RunValidator(fields: seq<FieldRules>, body: map<string, JsValue>) returns (outcome: Outcome)
    requires DistinctKeys(fields)
    ensures outcome == Decide(Errors(fields, body))
    ensures outcome.BadRequest? ==> forall k :: k in outcome.errors ==> outcome.errors[k] != []
  {
    var errors: map<string, seq<string>> := map[];
    var i := 0;
    while i < |fields|
      invariant 0 <= i <= |fields|
      invariant errors == Errors(fields[..i], body)
    {
      var key := fields[i].key;
      var value := Lookup(body, key);
      ErrorsStep(fields, body, i);
      if value != Undefined {
        KeyNotYetListed(fields, body, i);
        errors := PushFailures(errors, key, fields[i].rules, value);
      }
      i := i + 1;
    }
    assert fields[..i] == fields;
    NoEmptyErrorLists(fields, body);
    outcome := Decide(errors);
  }

  /** An empty body always reaches `next`. */
  lemma EmptyBodyPasses(fields: seq<FieldRules>)
    ensures Decide(Errors(fields, map[])) == Next
  {
    UndefinedFieldsPass(fields, map[]);
  }

  /** A body in which every ruled field passes reaches `next`. */
  lemma {:induction false} PassingBodyReachesNext(fields: seq<FieldRules>, body: map<string, JsValue>)
    requires forall i, k :: 0 <= i < |fields| && 0 <= k < |fields[i].rules| ==> fields[i].rules[k](Lookup(body, fields[i].key)).None?
    ensures Errors(fields, body) == map[]
  {
    if fields != [] {
      var front := fields[..|fields| - 1];
      assert forall i :: 0 <= i < |front| ==> front[i] == fields[i];
      PassingBodyReachesNext(front, body);
    }
  }
}
