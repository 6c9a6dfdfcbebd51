/**
 * The template service of internal/device/service/template_service.go: the
 * check of a template's field schema, the check of submitted device data
 * against that schema (including the small `|`-separated rule language of
 * validation rules), the paging of template lists and the partial update of
 * a template.
 *
 * Two library calls are parameters of the model: whether strconv.ParseFloat
 * accepts a text, and what regexp.MatchString answers for a pattern and a
 * text (None when the pattern does not compile).
 */
module TemplateService {
  import opened Common
  import opened GoLib
  import opened Dates
  import opened Paging
  import opened DeviceModel

  /** The library calls the value checks depend on. */
  datatype Oracles = Oracles(isFloat: string -> bool, regexMatch: (string, string) -> Option<bool>)

  /** The field types a schema may use. */
  const FieldTypes: seq<string> := ["text", "number", "select", "date", "textarea"]

  /** The longest `text` value, in bytes. */
  const MaxTextBytes: nat := 1000

  // ---------------------------------------------------------------------
  // contains

  /** `contains`: a linear search that stops at the first equal item. */
  method Contains(slice: seq<string>, value: string) returns (found: bool)
    ensures found <==> value in slice
  {
    var i := 0;
    while i < |slice|
      invariant 0 <= i <= |slice|
      invariant value !in slice[..i]
    {
      if slice[i] == value {
        return true;
      }
      i := i + 1;
    }
    assert slice[..i] == slice;
    return false;
  }

  // ---------------------------------------------------------------------
  // validateTemplateFields

  /** The error of one field definition, given the names of the fields before
      it; the checks run in the order of the source: name, label, duplicate
      name, type, options of a select field. */
  function FieldDefError(f: TemplateField, seen: set<string>): (e: Option<Error>)
    ensures e.Some? ==> e.value.code == Param
    ensures e.None? <==> WellFormedField(f) && f.name !in seen
  {
    if f.name == "" then Some(Error(Param, "field name must not be empty"))
    else if f.fieldLabel == "" then Some(Error(Param, "field label must not be empty"))
    else if f.name in seen then Some(Error(Param, "duplicate field name: " + f.name))
    else if f.fieldType !in FieldTypes then Some(Error(Param, "invalid field type: " + f.fieldType))
    else if f.fieldType == "select" && |f.options| == 0 then Some(Error(Param, "a select field needs options"))
    else None
  }

  /** A field definition that passes every check of its own. */
  predicate WellFormedField(f: TemplateField)
  {
    f.name != "" && f.fieldLabel != "" && f.fieldType in FieldTypes
    && (f.fieldType == "select" ==> |f.options| > 0)
  }

  predicate DistinctNames(fields: seq<TemplateField>)
  {
    forall i, j :: 0 <= i < j < |fields| ==> fields[i].name != fields[j].name
  }

  function NameSet(fields: seq<TemplateField>): set<string>
  {
    set i | 0 <= i < |fields| :: fields[i].name
  }

  /** The error validateTemplateFields returns for the fields that follow
      fields whose names are `seen`: the first field's error, if any. */
  function SchemaError(fields: seq<TemplateField>, seen: set<string>): Option<Error>
  {
    if fields == [] then None
    else match FieldDefError(fields[0], seen)
      case Some(e) => Some(e)
      case None => SchemaError(fields[1..], seen + {fields[0].name})
  }

  /** validateTemplateFields: the loop that records each accepted name in
      `fieldNames` and stops at the first failing field. */
  method ValidateTemplateFields(fields: seq<TemplateField>) returns (err: Option<Error>)
    ensures err == SchemaError(fields, {})
  {
    var fieldNames: set<string> := {};
    var i := 0;
    while i < |fields|
      invariant 0 <= i <= |fields|
      invariant SchemaError(fields, {}) == SchemaError(fields[i..], fieldNames)
    {
      var field := fields[i];
      assert fields[i..][0] == field && fields[i..][1..] == fields[i + 1..];
      if field.name == "" {
        return Some(Error(Param, "field name must not be empty"));
      }
      if field.fieldLabel == "" {
        return Some(Error(Param, "field label must not be empty"));
      }
      if field.name in fieldNames {
        return Some(Error(Param, "duplicate field name: " + field.name));
      }
      var seen := fieldNames;
      fieldNames := fieldNames + {field.name};
      var valid := Contains(FieldTypes, field.fieldType);
      if !valid {
        return Some(Error(Param, "invalid field type: " + field.fieldType));
      }
      if field.fieldType == "select" && |field.options| == 0 {
        return Some(Error(Param, "a select field needs options"));
      }
      assert FieldDefError(field, seen) == None;
      i := i + 1;
    }
    return None;
  }

  /** A schema is accepted exactly when every field is well formed, the names
      are pairwise distinct and none of them is already in `seen`. */
  lemma {:induction false} SchemaErrorNoneIff(fields: seq<TemplateField>, seen: set<string>)
    ensures SchemaError(fields, seen) == None <==>
      (forall i :: 0 <= i < |fields| ==> WellFormedField(fields[i]) && fields[i].name !in seen)
      && DistinctNames(fields)
  {
    if fields != [] {
      var f := fields[0];
      SchemaErrorNoneIff(fields[1..], seen + {f.name});
      if SchemaError(fields, seen) == None {
        forall i, j | 0 <= i < j < |fields|
          ensures fields[i].name != fields[j].name
        {
          if i > 0 {
            assert fields[1..][i - 1] == fields[i] && fields[1..][j - 1] == fields[j];
          } else {
            assert fields[1..][j - 1] == fields[j];
          }
        }
        forall i | 0 <= i < |fields|
          ensures WellFormedField(fields[i]) && fields[i].name !in seen
        {
          if i > 0 {
            assert fields[1..][i - 1] == fields[i];
          }
        }
      } else if FieldDefError(f, seen) == None {
        assert forall i :: 0 <= i < |fields| - 1 ==> fields[1..][i] == fields[i + 1];
      }
    }
  }

  /** The schema check of the source: a field list is accepted exactly when
      every field is well formed and the field names are pairwise distinct. */
  lemma SchemaAccepted(fields: seq<TemplateField>)
    ensures SchemaError(fields, {}) == None <==>
      (forall i :: 0 <= i < |fields| ==> WellFormedField(fields[i])) && DistinctNames(fields)
  {
    SchemaErrorNoneIff(fields, {});
  }

  /** A rejected schema is rejected with the error of its first failing field:
      every field before it is well formed and named apart from the others. */
  lemma {:induction false} SchemaErrorIsFirstFailure(fields: seq<TemplateField>, seen: set<string>)
    requires SchemaError(fields, seen).Some?
    ensures exists i :: 0 <= i < |fields| && SchemaError(fields[..i], seen) == None
              && FieldDefError(fields[i], seen + NameSet(fields[..i])) == SchemaError(fields, seen)
  {
    var f := fields[0];
    if FieldDefError(f, seen).Some? {
      assert fields[..0] == [];
      assert NameSet(fields[..0]) == {};
      assert seen + NameSet(fields[..0]) == seen;
    } else {
      var rest := fields[1..];
      SchemaErrorIsFirstFailure(rest, seen + {f.name});
      var k :| 0 <= k < |rest| && SchemaError(rest[..k], seen + {f.name}) == None
                && FieldDefError(rest[k], seen + {f.name} + NameSet(rest[..k])) == SchemaError(rest, seen + {f.name});
      var i := k + 1;
      assert fields[..i][0] == f && fields[..i][1..] == rest[..k];
      assert rest[k] == fields[i];
      NameSetCons(fields, i);
      assert seen + NameSet(fields[..i]) == seen + {f.name} + NameSet(rest[..k]);
    }
  }

  /** The names of a non-empty prefix: the first name and those of the rest. */
  lemma NameSetCons(fields: seq<TemplateField>, i: int)
    requires 1 <= i <= |fields|
    ensures NameSet(fields[..i]) == {fields[0].name} + NameSet(fields[1..][..i - 1])
  {
    var pre := fields[..i];
    var tail := fields[1..][..i - 1];
    forall x | x in NameSet(pre)
      ensures x in {fields[0].name} + NameSet(tail)
    {
      var j :| 0 <= j < i && pre[j].name == x;
      if j > 0 {
        assert tail[j - 1] == pre[j];
      }
    }
    forall x | x in NameSet(tail)
      ensures x in NameSet(pre)
    {
      var j :| 0 <= j < i - 1 && tail[j].name == x;
      assert pre[j + 1] == tail[j];
    }
    assert pre[0].name == fields[0].name;
  }

  // ---------------------------------------------------------------------
  // validateByRules

  /** One trimmed rule: `min:n` fails when the value has fewer than n bytes,
      `max:n` when it has more, an n that Atoi rejects disables the rule,
      `regex:p` fails when p does not compile or does not match, and anything
      else is ignored. */
  function RuleError(rule: string, value: string, fieldLabel: string,
                     regexMatch: (string, string) -> Option<bool>): Option<string>
  {
    if HasPrefix(rule, "min:") then
      match Atoi(TrimPrefix(rule, "min:"))
      case Some(min) =>
        if Utf8Len(value) < min then Some(fieldLabel + " must be at least " + FormatInt(min) + " characters") else None
      case None => None
    else if HasPrefix(rule, "max:") then
      match Atoi(TrimPrefix(rule, "max:"))
      case Some(max) =>
        if Utf8Len(value) > max then Some(fieldLabel + " must be at most " + FormatInt(max) + " characters") else None
      case None => None
    else if HasPrefix(rule, "regex:") then
      match regexMatch(TrimPrefix(rule, "regex:"), value)
      case None => Some(fieldLabel + " has an invalid validation rule")
      case Some(matched) => if matched then None else Some(fieldLabel + " has an invalid format")
    else None
  }

  /** What each kind of rule accepts. */
  lemma RuleErrorCases(rule: string, value: string, fieldLabel: string,
                       regexMatch: (string, string) -> Option<bool>)
    ensures var e := RuleError(rule, value, fieldLabel, regexMatch);
      && (HasPrefix(rule, "min:") ==>
            (e.Some? <==> (var n := Atoi(rule[4..]); n.Some? && Utf8Len(value) < n.value)))
      && (!HasPrefix(rule, "min:") && HasPrefix(rule, "max:") ==>
            (e.Some? <==> (var n := Atoi(rule[4..]); n.Some? && Utf8Len(value) > n.value)))
      && (!HasPrefix(rule, "min:") && !HasPrefix(rule, "max:") && HasPrefix(rule, "regex:") ==>
            (e.None? <==> regexMatch(rule[6..], value) == Some(true)))
      && (!HasPrefix(rule, "min:") && !HasPrefix(rule, "max:") && !HasPrefix(rule, "regex:") ==> e.None?)
  {
  }

  /** The error of one piece of a rule string: an empty piece is skipped. */
  function PieceError(piece: string, value: string, fieldLabel: string,
                      regexMatch: (string, string) -> Option<bool>): Option<string>
  {
    var rule := TrimSpace(piece);
    if rule == "" then None else RuleError(rule, value, fieldLabel, regexMatch)
  }

  /** The error of the rule pieces, in order: the first failing rule wins. */
  function RulesError(pieces: seq<string>, value: string, fieldLabel: string,
                      regexMatch: (string, string) -> Option<bool>): Option<string>
  {
    if pieces == [] then None
    else match PieceError(pieces[0], value, fieldLabel, regexMatch)
      case Some(e) => Some(e)
      case None => RulesError(pieces[1..], value, fieldLabel, regexMatch)
  }

  /** validateByRules: split the rule string on `|` and run the pieces in turn,
      returning at the first failing one. */
  method ValidateByRules(rules: string, value: string, fieldLabel: string,
                         regexMatch: (string, string) -> Option<bool>) returns (err: Option<string>)
    ensures err == RulesError(Split(rules, '|'), value, fieldLabel, regexMatch)
  {
    var ruleList := Split(rules, '|');
    var i := 0;
    while i < |ruleList|
      invariant 0 <= i <= |ruleList|
      invariant RulesError(ruleList, value, fieldLabel, regexMatch) == RulesError(ruleList[i..], value, fieldLabel, regexMatch)
    {
      assert ruleList[i..][0] == ruleList[i] && ruleList[i..][1..] == ruleList[i + 1..];
      var rule := TrimSpace(ruleList[i]);
      if rule != "" {
        var e := RuleError(rule, value, fieldLabel, regexMatch);
        if e.Some? {
          return e;
        }
      }
      i := i + 1;
    }
    return None;
  }

  /** Every piece of a rule string accepts the value. */
  predicate RulesPass(pieces: seq<string>, value: string, fieldLabel: string,
                      regexMatch: (string, string) -> Option<bool>)
  {
    forall i :: 0 <= i < |pieces| ==> PieceError(pieces[i], value, fieldLabel, regexMatch) == None
  }

  /** The rules pass exactly when no piece fails. */
  lemma {:induction false} RulesErrorNoneIff(pieces: seq<string>, value: string, fieldLabel: string,
                                            regexMatch: (string, string) -> Option<bool>)
    ensures RulesError(pieces, value, fieldLabel, regexMatch) == None <==> RulesPass(pieces, value, fieldLabel, regexMatch)
  {
    if pieces != [] {
      var rest := pieces[1..];
      RulesErrorNoneIff(rest, value, fieldLabel, regexMatch);
      assert forall i :: 0 <= i < |rest| ==> rest[i] == pieces[i + 1];
    }
  }

  /** The first error of a check applied to the pieces in order. */
  function FirstError(pieces: seq<string>, check: string -> Option<string>): Option<string>
  {
    if pieces == [] then None
    else match check(pieces[0])
      case Some(e) => Some(e)
      case None => FirstError(pieces[1..], check)
  }

  /** The first error is the error of some piece, every earlier piece
      passing the check. */
  lemma {:induction false} FirstErrorIsFirst(pieces: seq<string>, check: string -> Option<string>)
    requires FirstError(pieces, check).Some?
    ensures exists i :: (0 <= i < |pieces| && check(pieces[i]) == FirstError(pieces, check)
      && (forall j :: 0 <= j < i ==> check(pieces[j]) == None))
  {
    var rest := pieces[1..];
    if check(pieces[0]).None? {
      FirstErrorIsFirst(rest, check);
      var k :| 0 <= k < |rest| && check(rest[k]) == FirstError(rest, check)
        && forall j :: 0 <= j < k ==> check(rest[j]) == None;
      assert forall j :: 0 < j <= k ==> pieces[j] == rest[j - 1];
      assert pieces[k + 1] == rest[k];
    }
  }

  /** RulesError is the first error of PieceError over the pieces. */
  lemma {:induction false} RulesErrorIsFirstError(pieces: seq<string>, value: string, fieldLabel: string,
                                                 regexMatch: (string, string) -> Option<bool>,
                                                 check: string -> Option<string>)
    requires forall p :: check(p) == PieceError(p, value, fieldLabel, regexMatch)
    ensures RulesError(pieces, value, fieldLabel, regexMatch) == FirstError(pieces, check)
  {
    if pieces != [] {
      RulesErrorIsFirstError(pieces[1..], value, fieldLabel, regexMatch, check);
    }
  }

  /** A failure of the rules is the failure of the first failing piece. */
  lemma RulesErrorIsFirstFailure(pieces: seq<string>, value: string, fieldLabel: string,
                                 regexMatch: (string, string) -> Option<bool>)
    requires RulesError(pieces, value, fieldLabel, regexMatch).Some?
    ensures exists i :: (0 <= i < |pieces|
      && PieceError(pieces[i], value, fieldLabel, regexMatch) == RulesError(pieces, value, fieldLabel, regexMatch)
      && (forall j :: 0 <= j < i ==> PieceError(pieces[j], value, fieldLabel, regexMatch) == None))
  {
    var check := p => PieceError(p, value, fieldLabel, regexMatch);
    RulesErrorIsFirstError(pieces, value, fieldLabel, regexMatch, check);
    FirstErrorIsFirst(pieces, check);
  }

  /** An empty rule string imposes nothing. */
  lemma EmptyRulesPass(value: string, fieldLabel: string, regexMatch: (string, string) -> Option<bool>)
    ensures RulesError(Split("", '|'), value, fieldLabel, regexMatch) == None
  {
    assert Split("", '|') == [""];
    assert TrimSpace("") == "";
  }

  /** The rule string `min:n` fails exactly for the values shorter than n bytes. */
  lemma MinRule(n: int, value: string, fieldLabel: string, regexMatch: (string, string) -> Option<bool>)
    requires MinInt64 <= n <= MaxInt64
    ensures RulesError(Split("min:" + FormatInt(n), '|'), value, fieldLabel, regexMatch).Some?
            <==> Utf8Len(value) < n
  {
    SingleRule("min:", n, value, fieldLabel, regexMatch);
    RuleErrorCases("min:" + FormatInt(n), value, fieldLabel, regexMatch);
  }

  /** The rule string `max:n` fails exactly for the values longer than n bytes. */
  lemma MaxRule(n: int, value: string, fieldLabel: string, regexMatch: (string, string) -> Option<bool>)
    requires MinInt64 <= n <= MaxInt64
    ensures RulesError(Split("max:" + FormatInt(n), '|'), value, fieldLabel, regexMatch).Some?
            <==> Utf8Len(value) > n
  {
    SingleRule("max:", n, value, fieldLabel, regexMatch);
    RuleErrorCases("max:" + FormatInt(n), value, fieldLabel, regexMatch);
  }

  lemma SingleRule(kind: string, n: int, value: string, fieldLabel: string, regexMatch: (string, string) -> Option<bool>)
    requires kind == "min:" || kind == "max:"
    requires MinInt64 <= n <= MaxInt64
    ensures var rule := kind + FormatInt(n);
      Split(rule, '|') == [rule] && TrimSpace(rule) == rule && HasPrefix(rule, kind)
      && rule[4..] == FormatInt(n) && Atoi(rule[4..]) == Some(n)
      && RulesError(Split(rule, '|'), value, fieldLabel, regexMatch) == RuleError(rule, value, fieldLabel, regexMatch)
  {
    var rule := kind + FormatInt(n);
    FormatIntPlain(n);
    assert '|' !in rule;
    assert IndexOf(rule, '|') == None;
    assert rule[4..] == FormatInt(n);
    AtoiFormatInt(n);
    assert !IsSpace(rule[0]) && !IsSpace(rule[|rule| - 1]);
    assert TrimLeft(rule) == rule;
    assert TrimRight(rule) == rule;
    assert rule[..4] == kind;
    assert Split(rule, '|') == [rule];
    assert PieceError(rule, value, fieldLabel, regexMatch) == RuleError(rule, value, fieldLabel, regexMatch);
    assert RulesError([rule][1..], value, fieldLabel, regexMatch) == None;
  }

  /** FormatInt writes only digits and a leading minus sign. */
  lemma FormatIntPlain(n: int)
    ensures forall i :: 0 <= i < |FormatInt(n)| ==> IsDigit(FormatInt(n)[i]) || FormatInt(n)[i] == '-'
    ensures IsDigit(FormatInt(n)[|FormatInt(n)| - 1])
  {
    if n < 0 {
      var d := NatToString(-n);
      assert FormatInt(n) == "-" + d;
      assert forall i :: 1 <= i < |FormatInt(n)| ==> FormatInt(n)[i] == d[i - 1];
    }
  }

  // ---------------------------------------------------------------------
  // validateFieldValue

  /** A submitted value: JSON null, a string, or another JSON value held as
      the text that `%v` renders it to. */
  datatype Value = Nil | Str(s: string) | Other(text: string)

  /** `fmt.Sprintf("%v", value)` for a non-null value. */
  function Text(v: Value): string
  {
    match v
    case Nil => "<nil>"
    case Str(s) => s
    case Other(t) => t
  }

  /** The check a field's type imposes on the value's text. */
  function TypeError(f: TemplateField, text: string, o: Oracles): Option<string>
  {
    if f.fieldType == "number" then
      if o.isFloat(text) then None else Some(f.fieldLabel + " must be a number")
    else if f.fieldType == "date" then
      if ParseDate(text).Some? then None else Some(f.fieldLabel + " must be a date in the form YYYY-MM-DD")
    else if f.fieldType == "select" then
      if text in f.options then None else Some(f.fieldLabel + " is not one of the options")
    else if f.fieldType == "text" || f.fieldType == "textarea" then
      if Utf8Len(text) > MaxTextBytes && f.fieldType == "text" then Some(f.fieldLabel + " must be at most 1000 characters")
      else None
    else None
  }

  /** What each field type accepts; a type outside the known ones accepts anything. */
  lemma TypeErrorCases(f: TemplateField, text: string, o: Oracles)
    ensures var e := TypeError(f, text, o);
      && (f.fieldType == "select" ==> (e.None? <==> text in f.options))
      && (f.fieldType == "text" ==> (e.None? <==> Utf8Len(text) <= MaxTextBytes))
      && (f.fieldType == "textarea" ==> e.None?)
      && (f.fieldType == "date" ==> (e.None? <==> ParseDate(text).Some?))
      && (f.fieldType == "number" ==> (e.None? <==> o.isFloat(text)))
      && (f.fieldType !in FieldTypes ==> e.None?)
  {
  }

  /** validateFieldValue: the type check first, then the field's rules when it has any. */
  function FieldValueError(f: TemplateField, text: string, o: Oracles): Option<string>
  {
    match TypeError(f, text, o)
    case Some(err) => Some(err)
    case None =>
      if f.validationRules != "" then RulesError(Split(f.validationRules, '|'), text, f.fieldLabel, o.regexMatch)
      else None
  }

  /** A value passes its field exactly when it passes the type check and
      either the field has no rules or every rule piece accepts it. */
  lemma FieldValueAccepted(f: TemplateField, text: string, o: Oracles)
    ensures FieldValueError(f, text, o).None? <==>
      (TypeError(f, text, o).None? && (f.validationRules != "" ==> RulesPass(Split(f.validationRules, '|'), text, f.fieldLabel, o.regexMatch)))
  {
    RulesErrorNoneIff(Split(f.validationRules, '|'), text, f.fieldLabel, o.regexMatch);
  }

  // ---------------------------------------------------------------------
  // ValidateDeviceData

  datatype DataCheck = DataCheck(
    valid: bool,
    errors: map<string, string>,
    missing: seq<string>,
    invalid: map<string, Value>)

  /** A required field whose value is absent, null or the empty string. */
  predicate MissingRequired(f: TemplateField, data: map<string, Value>)
  {
    f.required && (f.name !in data || data[f.name] == Nil || data[f.name] == Str(""))
  }

  /** A field whose value is checked: not missing-required, present and not null. */
  predicate Checked(f: TemplateField, data: map<string, Value>)
  {
    !MissingRequired(f, data) && f.name in data && data[f.name] != Nil
  }

  /** The response after the fields processed so far and one more field. */
  function CheckStep(acc: DataCheck, f: TemplateField, data: map<string, Value>, o: Oracles): DataCheck
  {
    if MissingRequired(f, data) then
      DataCheck(false, acc.errors[f.name := f.fieldLabel + " is required"], acc.missing + [f.name], acc.invalid)
    else if f.name !in data || data[f.name] == Nil then acc
    else match FieldValueError(f, Text(data[f.name]), o)
      case Some(e) => DataCheck(false, acc.errors[f.name := e], acc.missing, acc.invalid[f.name := data[f.name]])
      case None => acc
  }

  /** The response ValidateDeviceData builds from a template's fields. */
  function CheckFields(fields: seq<TemplateField>, data: map<string, Value>, o: Oracles): DataCheck
  {
    if fields == [] then DataCheck(true, map[], [], map[])
    else CheckStep(CheckFields(fields[..|fields| - 1], data, o), fields[|fields| - 1], data, o)
  }

  /** One more field of the list extends the response by one step. */
  lemma CheckFieldsPrefix(fields: seq<TemplateField>, i: nat, data: map<string, Value>, o: Oracles)
    requires i < |fields|
    ensures CheckFields(fields[..i + 1], data, o) == CheckStep(CheckFields(fields[..i], data, o), fields[i], data, o)
  {
    assert fields[..i + 1][..i] == fields[..i];
  }

  /** GetTemplateFields. `stored` is what the template lookup returned: its
      database error, no template, or the template's Fields text; `decoded`
      is that text's JSON decoding, None when it does not decode. An empty
      text is not decoded and gives no fields. */
  function GetTemplateFields(templateID: int, stored: Result<Option<string>>, decoded: Option<seq<TemplateField>>)
    : (r: Result<seq<TemplateField>>)
    ensures templateID <= 0 ==> r.Err? && r.error.code == Param
    ensures templateID > 0 && stored.Err? ==> r.Err? && r.error.code == Server
    ensures templateID > 0 && stored == Ok(None) ==> r.Err? && r.error.code == NotFound
    ensures templateID > 0 && stored == Ok(Some("")) ==> r == Ok([])
    ensures templateID > 0 && stored.Ok? && stored.value.Some? && stored.value.value != "" ==>
      (decoded.None? ==> r.Err? && r.error.code == Server) && (decoded.Some? ==> r == Ok(decoded.value))
  {
    if templateID <= 0 then Fail(Param, "invalid template ID")
    else if stored.Err? then Fail(Server, "failed to load the template")
    else if stored.value.None? then Fail(NotFound, "template not found")
    else if stored.value.value == "" then Ok([])
    else if decoded.None? then Fail(Server, "failed to decode the template fields")
    else Ok(decoded.value)
  }

  /** ValidateDeviceData on the lookup GetTemplateFields makes: its error is
      passed on, and otherwise the answer is the per-field check of the
      template's fields. */
  method ValidateDeviceData(templateID: int, stored: Result<Option<string>>, decoded: Option<seq<TemplateField>>,
                            data: map<string, Value>, o: Oracles) returns (r: Result<DataCheck>)
    ensures templateID <= 0 ==> r.Err? && r.error.code == Param
    ensures GetTemplateFields(templateID, stored, decoded).Err? ==> r == Err(GetTemplateFields(templateID, stored, decoded).error)
    ensures GetTemplateFields(templateID, stored, decoded).Ok? ==>
      r == Ok(CheckFields(GetTemplateFields(templateID, stored, decoded).value, data, o))
  {
    if templateID <= 0 {
      return Fail(Param, "invalid template ID");
    }
    var template := GetTemplateFields(templateID, stored, decoded);
    if template.Err? {
      return Err(template.error);
    }
    var fields := template.value;
    var valid := true;
    var errors: map<string, string> := map[];
    var missing: seq<string> := [];
    var invalid: map<string, Value> := map[];
    var i := 0;
    while i < |fields|
      invariant 0 <= i <= |fields|
      invariant DataCheck(valid, errors, missing, invalid) == CheckFields(fields[..i], data, o)
    {
      var field := fields[i];
      CheckFieldsPrefix(fields, i, data, o);
      if field.required && (field.name !in data || data[field.name] == Nil || data[field.name] == Str("")) {
        valid := false;
        missing := missing + [field.name];
        errors := errors[field.name := field.fieldLabel + " is required"];
        i := i + 1;
        continue;
      }
      if field.name !in data || data[field.name] == Nil {
        i := i + 1;
        continue;
      }
      var value := data[field.name];
      var err := FieldValueError(field, Text(value), o);
      if err.Some? {
        valid := false;
        invalid := invalid[field.name := value];
        errors := errors[field.name := err.value];
      }
      i := i + 1;
    }
    assert fields[..i] == fields;
    return Ok(DataCheck(valid, errors, missing, invalid));
  }

  /** Valid is false exactly when a field is missing or invalid, and Errors
      has a key for exactly the missing and the invalid fields. */
  lemma {:induction false} CheckFieldsConsistent(fields: seq<TemplateField>, data: map<string, Value>, o: Oracles)
    ensures var c := CheckFields(fields, data, o);
      (c.valid <==> c.missing == [] && c.invalid == map[])
      && c.errors.Keys == (set n | n in c.missing) + c.invalid.Keys
  {
    if fields != [] {
      var init := fields[..|fields| - 1];
      var f := fields[|fields| - 1];
      CheckFieldsConsistent(init, data, o);
      var c0 := CheckFields(init, data, o);
      var c := CheckFields(fields, data, o);
      if MissingRequired(f, data) {
        assert f.name in c.missing;
      } else if c != c0 {
        assert f.name in c.invalid;
      }
    }
  }

  /** The names of the missing required fields, in template order. */
  function MissingNames(fields: seq<TemplateField>, data: map<string, Value>): seq<string>
  {
    if fields == [] then []
    else if MissingRequired(fields[0], data) then [fields[0].name] + MissingNames(fields[1..], data)
    else MissingNames(fields[1..], data)
  }

  lemma {:induction false} MissingNamesSnoc(fields: seq<TemplateField>, f: TemplateField, data: map<string, Value>)
    ensures MissingNames(fields + [f], data) == MissingNames(fields, data) + MissingNames([f], data)
  {
    if fields != [] {
      assert (fields + [f])[1..] == fields[1..] + [f];
      MissingNamesSnoc(fields[1..], f, data);
    }
  }

  /** Missing lists the missing required fields in template order. */
  lemma {:induction false} CheckFieldsMissing(fields: seq<TemplateField>, data: map<string, Value>, o: Oracles)
    ensures CheckFields(fields, data, o).missing == MissingNames(fields, data)
  {
    if fields != [] {
      var init := fields[..|fields| - 1];
      var f := fields[|fields| - 1];
      CheckFieldsMissing(init, data, o);
      assert fields == init + [f];
      MissingNamesSnoc(init, f, data);
    }
  }

  /** The fields whose value is checked and fails the check. */
  predicate FailsCheck(f: TemplateField, data: map<string, Value>, o: Oracles)
  {
    Checked(f, data) && FieldValueError(f, Text(data[f.name]), o).Some?
  }

  function FailingNames(fields: seq<TemplateField>, data: map<string, Value>, o: Oracles): set<string>
  {
    set i | 0 <= i < |fields| && FailsCheck(fields[i], data, o) :: fields[i].name
  }

  /** Invalid holds exactly the names of the checked fields that fail, each
      with the value that was submitted for it. */
  lemma {:induction false} CheckFieldsInvalid(fields: seq<TemplateField>, data: map<string, Value>, o: Oracles)
    ensures var c := CheckFields(fields, data, o);
      c.invalid.Keys == FailingNames(fields, data, o)
      && forall k :: k in c.invalid ==> k in data && c.invalid[k] == data[k]
  {
    if fields != [] {
      var init := fields[..|fields| - 1];
      var f := fields[|fields| - 1];
      CheckFieldsInvalid(init, data, o);
      FailingNamesSnoc(init, f, data, o);
      assert fields == init + [f];
    }
  }

  lemma FailingNamesSnoc(fields: seq<TemplateField>, f: TemplateField, data: map<string, Value>, o: Oracles)
    ensures FailingNames(fields + [f], data, o)
            == FailingNames(fields, data, o) + (if FailsCheck(f, data, o) then {f.name} else {})
  {
    var all := fields + [f];
    forall k | k in FailingNames(all, data, o)
      ensures k in FailingNames(fields, data, o) + (if FailsCheck(f, data, o) then {f.name} else {})
    {
      var i :| 0 <= i < |all| && FailsCheck(all[i], data, o) && all[i].name == k;
      if i < |fields| {
        assert all[i] == fields[i];
      }
    }
    forall k | k in FailingNames(fields, data, o)
      ensures k in FailingNames(all, data, o)
    {
      var i :| 0 <= i < |fields| && FailsCheck(fields[i], data, o) && fields[i].name == k;
      assert all[i] == fields[i];
    }
    if FailsCheck(f, data, o) {
      assert all[|fields|] == f;
    }
  }

  /** Every name in MissingNames is the name of one of the fields. */
  lemma {:induction false} MissingNamesOf(fields: seq<TemplateField>, data: map<string, Value>)
    ensures forall k :: k in MissingNames(fields, data) ==> k in NameSet(fields)
  {
    if fields != [] {
      MissingNamesOf(fields[1..], data);
      forall k | k in NameSet(fields[1..])
        ensures k in NameSet(fields)
      {
        var i :| 0 <= i < |fields[1..]| && fields[1..][i].name == k;
        assert fields[i + 1] == fields[1..][i];
      }
      assert fields[0].name in NameSet(fields);
    }
  }

  /** With distinct field names no field is both missing and invalid. */
  lemma {:induction false} MissingNotInvalid(fields: seq<TemplateField>, data: map<string, Value>, o: Oracles)
    requires DistinctNames(fields)
    ensures var c := CheckFields(fields, data, o);
      forall k :: k in c.missing ==> k !in c.invalid
  {
    if fields != [] {
      var init := fields[..|fields| - 1];
      var f := fields[|fields| - 1];
      assert DistinctNames(init);
      MissingNotInvalid(init, data, o);
      CheckFieldsInvalid(init, data, o);
      CheckFieldsMissing(init, data, o);
      MissingNamesOf(init, data);
      assert f.name !in NameSet(init);
      assert FailingNames(init, data, o) <= NameSet(init);
    }
  }

  /** An optional field that is absent or null leaves the response as it was. */
  lemma OptionalAbsentSkipped(acc: DataCheck, f: TemplateField, data: map<string, Value>, o: Oracles)
    requires !f.required && (f.name !in data || data[f.name] == Nil)
    ensures CheckStep(acc, f, data, o) == acc
  {
  }

  // ---------------------------------------------------------------------
  // GetTemplatesList and GetPopularTemplates paging

  /** The templates of one page, with the page, page size and page count a
      template list answers with. */
  datatype ListPage = ListPage(templates: seq<TemplateRow>, page: int, limit: int, total: nat, totalPages: nat)

  /** GetTemplatesList's answer for the templates and total the query gave:
      the page is at least 1, the size lies in 1..100 with default 10, and
      the pages are the ceiling of total / size. */
  function TemplatesListPage(templates: seq<TemplateRow>, page: int, limit: int, total: nat): (p: ListPage)
    ensures p.templates == templates
    ensures p.page == (if page <= 0 then 1 else page)
    ensures p.limit == (if limit <= 0 then 10 else if limit > 100 then 100 else limit)
    ensures p.page >= 1 && 1 <= p.limit <= 100 && p.total == total
    ensures p.totalPages * p.limit >= total
    ensures p.totalPages == 0 || (p.totalPages - 1) * p.limit < total
  {
    var l := ClampLimit(limit, 100);
    TotalPagesIsCeiling(total, l);
    ListPage(templates, ClampPage(page), l, total, TotalPages(total, l))
  }

  /** GetTemplatesList; `query` is GetTemplatesWithPagination: for a
      category ID, the active flag, a page and a page size it gives that
      page's templates and the total, or its database error. The filters go
      to the query unchanged; the page and size are clamped first. */
  function GetTemplatesList(categoryID: int, active: bool, page: int, limit: int,
                            query: (int, bool, int, int) -> Result<(seq<TemplateRow>, nat)>): (r: Result<ListPage>)
    ensures var asked := query(categoryID, active, ClampPage(page), ClampLimit(limit, 100));
      && (asked.Err? ==> r.Err? && r.error.code == Server)
      && (asked.Ok? ==> r == Ok(TemplatesListPage(asked.value.0, page, limit, asked.value.1)))
  {
    var l := ClampLimit(limit, 100);
    match query(categoryID, active, ClampPage(page), l)
    case Err(_) => Fail(Server, "failed to list the templates")
    case Ok((templates, total)) => Ok(TemplatesListPage(templates, page, limit, total))
  }

  /** GetPopularTemplates: the limit lies in 1..50 with default 10. */
  function PopularTemplatesLimit(limit: int): (l: int)
    ensures 1 <= l <= 50
    ensures limit <= 0 ==> l == DefaultLimit
    ensures limit > 50 ==> l == 50
    ensures 1 <= limit <= 50 ==> l == limit
  {
    ClampLimit(limit, 50)
  }

  /** GetPopularTemplates; `popular` answers the query for a limit. */
  function GetPopularTemplates(limit: int, popular: int -> Result<seq<TemplateRow>>): (r: Result<seq<TemplateRow>>)
    ensures popular(PopularTemplatesLimit(limit)).Err? ==> r.Err? && r.error.code == Server
    ensures popular(PopularTemplatesLimit(limit)).Ok? ==> r == popular(PopularTemplatesLimit(limit))
  {
    match popular(ClampLimit(limit, 50))
    case Err(_) => Fail(Server, "failed to load the popular templates")
    case Ok(ts) => Ok(ts)
  }

  // ---------------------------------------------------------------------
  // UpdateTemplate

  datatype UpdateTemplateRequest = UpdateTemplateRequest(
    name: string,
    categoryID: int,
    description: string,
    icon: string,
    fields: seq<TemplateField>,
    active: bool)

  /** The merge of UpdateTemplate: a field changes only when the request
      carries a non-empty value (a positive category ID, a non-empty field
      list); IsActive is always replaced. */
  function MergeTemplate(row: TemplateRow, req: UpdateTemplateRequest): TemplateRow
  {
    row.(name := if req.name != "" then req.name else row.name,
         categoryID := if req.categoryID > 0 then req.categoryID else row.categoryID,
         description := if req.description != "" then req.description else row.description,
         icon := if req.icon != "" then req.icon else row.icon,
         fields := if |req.fields| > 0 then req.fields else row.fields,
         isActive := req.active)
  }

  /** Applying the same update twice is applying it once. */
  lemma MergeTemplateIdempotent(row: TemplateRow, req: UpdateTemplateRequest)
    ensures MergeTemplate(MergeTemplate(row, req), req) == MergeTemplate(row, req)
  {
  }

  /** A request with nothing set still deactivates or activates the template,
      and changes nothing else. */
  lemma MergeTemplateEmpty(row: TemplateRow, active: bool)
    ensures MergeTemplate(row, UpdateTemplateRequest("", 0, "", "", [], active)) == row.(isActive := active)
  {
  }

  /** UpdateTemplate on the fields of a loaded template, step by step as the
      source assigns them: the name first, then the category (whose failed
      or empty lookup stops the update), the description and icon, then the
      schema (whose rejection or failed encoding stops the update), the
      active flag, and last the write. `category` is whether the requested
      category exists, or the lookup's database error; `marshalFailed` and
      `saveFailed` say whether encoding the fields and the write failed. */
  function TemplateUpdate(templateID: int, row: TemplateRow, req: UpdateTemplateRequest, category: Result<bool>,
                          marshalFailed: bool, saveFailed: bool): Outcome<TemplateRow>
  {
    if templateID <= 0 then Outcome(Fail(Param, "invalid template ID"), row)
    else
      var named := if req.name != "" then row.(name := req.name) else row;
      if req.categoryID > 0 && category.Err? then Outcome(Fail(Server, "failed to check the category"), named)
      else if req.categoryID > 0 && !category.value then Outcome(Fail(NotFound, "category not found"), named)
      else
        var described := named.(categoryID := if req.categoryID > 0 then req.categoryID else named.categoryID,
                                description := if req.description != "" then req.description else named.description,
                                icon := if req.icon != "" then req.icon else named.icon);
        StoreSchema(described, req, marshalFailed, saveFailed)
  }

  /** The end of UpdateTemplate: the schema, the active flag and the write. */
  function StoreSchema(described: TemplateRow, req: UpdateTemplateRequest, marshalFailed: bool, saveFailed: bool)
    : Outcome<TemplateRow>
  {
    if |req.fields| > 0 && SchemaError(req.fields, {}).Some? then Outcome(Err(SchemaError(req.fields, {}).value), described)
    else if |req.fields| > 0 && marshalFailed then Outcome(Fail(Server, "failed to encode the fields"), described)
    else
      var updated := described.(fields := if |req.fields| > 0 then req.fields else described.fields,
                                isActive := req.active);
      if saveFailed then Outcome(Fail(Server, "failed to update the template"), updated)
      else Outcome(Ok(updated), updated)
  }

  /** The schema checks of UpdateTemplate pass: no fields, or fields that are
      accepted and encode. */
  predicate SchemaStored(req: UpdateTemplateRequest, marshalFailed: bool)
  {
    |req.fields| == 0 || (SchemaError(req.fields, {}).None? && !marshalFailed)
  }

  /** The cases of UpdateTemplate: an invalid ID changes nothing; a failed or
      empty category lookup keeps only the new name; a bad schema or one that
      does not encode keeps everything but the schema and the active flag; a
      failed write keeps the whole merge; otherwise the stored template is
      the merge of the request, and it is what is returned. */
  lemma TemplateUpdateCases(templateID: int, row: TemplateRow, req: UpdateTemplateRequest, category: Result<bool>,
                            marshalFailed: bool, saveFailed: bool)
    ensures var o := TemplateUpdate(templateID, row, req, category, marshalFailed, saveFailed);
      var merged := MergeTemplate(row, req);
      var categoryOk := req.categoryID <= 0 || category == Ok(true);
      && (templateID <= 0 ==> o.result.Err? && o.result.error.code == Param && o.state == row)
      && (templateID > 0 && req.categoryID > 0 && category.Err? ==>
            o.result.Err? && o.result.error.code == Server && o.state == row.(name := merged.name))
      && (templateID > 0 && req.categoryID > 0 && category == Ok(false) ==>
            o.result.Err? && o.result.error.code == NotFound && o.state == row.(name := merged.name))
      && (templateID > 0 && categoryOk && |req.fields| > 0 && SchemaError(req.fields, {}).Some? ==>
            o.result == Err(SchemaError(req.fields, {}).value)
            && o.state == merged.(fields := row.fields, isActive := row.isActive))
      && (templateID > 0 && categoryOk && |req.fields| > 0 && SchemaError(req.fields, {}).None? && marshalFailed ==>
            o.result.Err? && o.result.error.code == Server
            && o.state == merged.(fields := row.fields, isActive := row.isActive))
      && (templateID > 0 && categoryOk && SchemaStored(req, marshalFailed) ==> o.state == merged)
      && (templateID > 0 && categoryOk && SchemaStored(req, marshalFailed) && saveFailed ==>
            o.result.Err? && o.result.error.code == Server)
      && (o.result.Ok? <==> templateID > 0 && categoryOk && SchemaStored(req, marshalFailed) && !saveFailed)
      && (o.result.Ok? ==> o.state == merged && o.result.value == o.state)
      && (o.result.Ok? && |req.fields| > 0 ==> DistinctNames(o.state.fields))
  {
    if templateID > 0 && (req.categoryID <= 0 || category == Ok(true)) && |req.fields| > 0 && SchemaError(req.fields, {}).None? {
      SchemaAccepted(req.fields);
    }
  }

  /** UpdateTemplate on what the repository returned: a database error when
      `loadFailed`, otherwise the template object (null when there is none).
      The object's fields are assigned in the order of the source and only a
      successful update is persisted. */
  method UpdateTemplate(templateID: int, loadFailed: bool, t: DeviceTemplate?, req: UpdateTemplateRequest,
                        category: Result<bool>, marshalFailed: bool, saveFailed: bool)
    returns (r: Result<TemplateRow>)
    modifies t
    ensures t == null || loadFailed ==>
      r.Err? && r.error.code == (if templateID <= 0 then Param else if loadFailed then Server else NotFound)
    ensures t != null && loadFailed ==> t.Row() == old(t.Row())
    ensures t != null && !loadFailed ==>
      var o := TemplateUpdate(templateID, old(t.Row()), req, category, marshalFailed, saveFailed);
      r == o.result && t.Row() == o.state
  {
    if templateID <= 0 {
      return Fail(Param, "invalid template ID");
    }
    if loadFailed {
      return Fail(Server, "failed to load the template");
    }
    if t == null {
      return Fail(NotFound, "template not found");
    }
    if req.name != "" {
      t.name := req.name;
    }
    if req.categoryID > 0 {
      if category.Err? {
        return Fail(Server, "failed to check the category");
      }
      if !category.value {
        return Fail(NotFound, "category not found");
      }
    }
    SetCategoryAndText(t, req);
    r := StoreTemplateSchema(t, req, marshalFailed, saveFailed);
  }

  /** The rest of UpdateTemplate once the category and texts are on the object. */
  method StoreTemplateSchema(t: DeviceTemplate, req: UpdateTemplateRequest, marshalFailed: bool, saveFailed: bool)
    returns (r: Result<TemplateRow>)
    modifies t
    ensures var o := StoreSchema(old(t.Row()), req, marshalFailed, saveFailed);
      r == o.result && t.Row() == o.state
  {
    if |req.fields| > 0 {
      var err := ValidateTemplateFields(req.fields);
      if err.Some? {
        return Err(err.value);
      }
      if marshalFailed {
        return Fail(Server, "failed to encode the fields");
      }
    }
    SetSchemaAndState(t, req);
    if saveFailed {
      return Fail(Server, "failed to update the template");
    }
    return Ok(t.Row());
  }

  /** The category, description and icon change when the request carries them. */
  method SetCategoryAndText(t: DeviceTemplate, req: UpdateTemplateRequest)
    modifies t
    ensures t.Row() == old(t.Row()).(categoryID := if req.categoryID > 0 then req.categoryID else old(t.categoryID),
                                     description := if req.description != "" then req.description else old(t.description),
                                     icon := if req.icon != "" then req.icon else old(t.icon))
  {
    if req.categoryID > 0 {
      t.categoryID := req.categoryID;
    }
    if req.description != "" {
      t.description := req.description;
    }
    if req.icon != "" {
      t.icon := req.icon;
    }
  }

  /** The schema changes when the request carries one; the active flag always does. */
  method SetSchemaAndState(t: DeviceTemplate, req: UpdateTemplateRequest)
    modifies t
    ensures t.Row() == old(t.Row()).(fields := if |req.fields| > 0 then req.fields else old(t.fields),
                                     isActive := req.active)
  {
    if |req.fields| > 0 {
      t.fields := req.fields;
    }
    t.isActive := req.active;
  }
}
