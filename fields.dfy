/**
 * A form field: its configuration (defaults merged with what the caller
 * supplies), the variables it hands to the template renderer, and its
 * validation, which stores the last error list on the field.
 */
module Fields {
  import opened Values
  import opened Utils
  import opened Templates

  /** A custom validator: (field name, submitted value, all submitted data) to error messages. */
  type Validator = (string, Value, Data) -> seq<string>

  /**
   * The field configuration. `options` is the list of (option value, option
   * text) pairs in iteration order; a null `options` reads as no options.
   * `validateFunction` is `None` when it is not a function. `labelText` is
   * the `label` key (a reserved word here).
   */
  datatype FieldConfig = FieldConfig(
    disabled: bool,
    emptyOptionText: string,
    errorsTemplate: string,
    fieldAttributes: Attrs,
    fieldClasses: seq<string>,
    fieldTemplate: string,
    inputAttributes: Attrs,
    inputClasses: seq<string>,
    inputTemplate: string,
    inputType: string,
    labelText: string,
    labelAttributes: Attrs,
    labelClasses: seq<string>,
    name: string,
    note: string,
    noteClasses: seq<string>,
    options: seq<(string, string)>,
    readonly: bool,
    required: bool,
    requiredText: string,
    value: Value,
    validateFunction: Option<Validator>)

  /** The configuration object a caller passes to the constructor: `Some` for each key it sets. */
  datatype FieldOptions = FieldOptions(
    disabled: Option<bool>,
    emptyOptionText: Option<string>,
    errorsTemplate: Option<string>,
    fieldAttributes: Option<Attrs>,
    fieldClasses: Option<seq<string>>,
    fieldTemplate: Option<string>,
    inputAttributes: Option<Attrs>,
    inputClasses: Option<seq<string>>,
    inputTemplate: Option<string>,
    inputType: Option<string>,
    labelText: Option<string>,
    labelAttributes: Option<Attrs>,
    labelClasses: Option<seq<string>>,
    name: Option<string>,
    note: Option<string>,
    noteClasses: Option<seq<string>>,
    options: Option<seq<(string, string)>>,
    readonly: Option<bool>,
    required: Option<bool>,
    requiredText: Option<string>,
    value: Option<Value>,
    validateFunction: Option<Option<Validator>>)

  /** A configuration object that sets no key (`{}`, `null` or `undefined`). */
  function NoFieldOptions(): FieldOptions {
    FieldOptions(None, None, None, None, None, None, None, None, None, None, None,
                 None, None, None, None, None, None, None, None, None, None, None)
  }

  /** A configuration object that sets every key to the value `c` has. */
  function AllFieldOptions(c: FieldConfig): FieldOptions {
    FieldOptions(Some(c.disabled), Some(c.emptyOptionText), Some(c.errorsTemplate),
                 Some(c.fieldAttributes), Some(c.fieldClasses), Some(c.fieldTemplate),
                 Some(c.inputAttributes), Some(c.inputClasses), Some(c.inputTemplate),
                 Some(c.inputType), Some(c.labelText), Some(c.labelAttributes),
                 Some(c.labelClasses), Some(c.name), Some(c.note), Some(c.noteClasses),
                 Some(c.options), Some(c.readonly), Some(c.required), Some(c.requiredText),
                 Some(c.value), Some(c.validateFunction))
  }

  const DefaultFieldTemplate: string :=
    "<div {{{fieldAttributes}}} class=\"{{{fieldClasses}}}\">"
    + "<label for=\"{{{name}}}\" {{{labelAttributes}}} class=\"{{{labelClasses}}}\">"
    + "{{label}}</label>"
    + "{{{inputHtml}}}"
    + "{{#note}}<div class=\"{{{noteClasses}}}\">{{{note}}}</div>{{/note}}"
    + "{{{errorsHtml}}}"
    + "</div>"

  /** The configuration defaults of every field. */
  function FieldDefaults(): FieldConfig {
    FieldConfig(
      disabled := false,
      emptyOptionText := "Please select an option",
      errorsTemplate := "",
      fieldAttributes := [],
      fieldClasses := [],
      fieldTemplate := DefaultFieldTemplate,
      inputAttributes := [],
      inputClasses := [],
      inputTemplate := "",
      inputType := "text",
      labelText := "",
      labelAttributes := [],
      labelClasses := [],
      name := "",
      note := "",
      noteClasses := [],
      options := [],
      readonly := false,
      required := false,
      requiredText := "",
      value := Str(""),
      validateFunction := None)
  }

  /** `Object.assign({}, base, supplied)`: each key the caller sets overrides the base value. */
  function MergeFieldConfig(base: FieldConfig, o: FieldOptions): FieldConfig {
    FieldConfig(
      o.disabled.GetOr(base.disabled),
      o.emptyOptionText.GetOr(base.emptyOptionText),
      o.errorsTemplate.GetOr(base.errorsTemplate),
      o.fieldAttributes.GetOr(base.fieldAttributes),
      o.fieldClasses.GetOr(base.fieldClasses),
      o.fieldTemplate.GetOr(base.fieldTemplate),
      o.inputAttributes.GetOr(base.inputAttributes),
      o.inputClasses.GetOr(base.inputClasses),
      o.inputTemplate.GetOr(base.inputTemplate),
      o.inputType.GetOr(base.inputType),
      o.labelText.GetOr(base.labelText),
      o.labelAttributes.GetOr(base.labelAttributes),
      o.labelClasses.GetOr(base.labelClasses),
      o.name.GetOr(base.name),
      o.note.GetOr(base.note),
      o.noteClasses.GetOr(base.noteClasses),
      o.options.GetOr(base.options),
      o.readonly.GetOr(base.readonly),
      o.required.GetOr(base.required),
      o.requiredText.GetOr(base.requiredText),
      o.value.GetOr(base.value),
      o.validateFunction.GetOr(base.validateFunction))
  }

  /** Merging: no keys give the base back, all keys give the supplied values, and merging twice changes nothing. */
  lemma {:induction false} MergeFieldConfigSpec(base: FieldConfig, o: FieldOptions, c: FieldConfig)
    ensures MergeFieldConfig(base, NoFieldOptions()) == base
    ensures MergeFieldConfig(base, AllFieldOptions(c)) == c
    ensures MergeFieldConfig(MergeFieldConfig(base, o), o) == MergeFieldConfig(base, o)
    ensures o.required.Some? ==> MergeFieldConfig(base, o).required == o.required.value
    ensures o.required.None? ==> MergeFieldConfig(base, o).required == base.required
  {
  }

  // ---------------------------------------------------------------------
  // Options of select, radio and checkbox inputs
  // ---------------------------------------------------------------------

  /** The choice record of one option: selected exactly when the value is that option key, as a string. */
  function ChoiceFor(option: (string, string), value: Value): Choice {
    Choice(option.0, option.1, value == Str(option.0))
  }

  /** The choice records of `options`, one per option, in option order. */
  function Choices(options: seq<(string, string)>, value: Value): (r: seq<Choice>)
    ensures |r| == |options|
    ensures forall i :: 0 <= i < |r| ==>
              r[i].optionValue == options[i].0 && r[i].optionText == options[i].1
    ensures forall i :: 0 <= i < |r| ==> (r[i].optionSelected <==> value == Str(options[i].0))
  {
    if |options| == 0 then []
    else Choices(options[..|options| - 1], value) + [ChoiceFor(options[|options| - 1], value)]
  }

  predicate AnySelected(choices: seq<Choice>) {
    exists i :: 0 <= i < |choices| && choices[i].optionSelected
  }

  /** Strict equality: only a string value equal to an option key selects anything. */
  lemma {:induction false} HasSelectedOptionSpec(options: seq<(string, string)>, value: Value)
    ensures AnySelected(Choices(options, value)) <==>
              value.Str? && exists i :: 0 <= i < |options| && options[i].0 == value.s
    ensures !value.Str? ==> !AnySelected(Choices(options, value))
  {
    var cs := Choices(options, value);
    if value.Str? && exists i :: 0 <= i < |options| && options[i].0 == value.s {
      var i :| 0 <= i < |options| && options[i].0 == value.s;
      assert cs[i].optionSelected;
    }
  }

  lemma AnySelectedAppend(choices: seq<Choice>, c: Choice)
    ensures AnySelected(choices + [c]) <==> AnySelected(choices) || c.optionSelected
  {
    if c.optionSelected {
      assert (choices + [c])[|choices|] == c;
    }
    if AnySelected(choices) {
      var i :| 0 <= i < |choices| && choices[i].optionSelected;
      assert (choices + [c])[i] == choices[i];
    }
  }

  /** The option loop of `render`: one choice record per option and whether any is selected. */
  method BuildChoices(options: seq<(string, string)>, value: Value)
    returns (selectOptions: seq<Choice>, hasSelectedOption: bool)
    ensures selectOptions == Choices(options, value)
    ensures hasSelectedOption == AnySelected(selectOptions)
  {
    selectOptions := [];
    hasSelectedOption := false;
    var i := 0;
    while i < |options|
      invariant 0 <= i <= |options|
      invariant selectOptions == Choices(options[..i], value)
      invariant hasSelectedOption == AnySelected(selectOptions)
    {
      var (optionValue, optionText) := options[i];
      if Str(optionValue) == value {
        hasSelectedOption := true;
      }
      var choice := Choice(optionValue, optionText, Str(optionValue) == value);
      AnySelectedAppend(selectOptions, choice);
      selectOptions := selectOptions + [choice];
      assert options[..i + 1][..i] == options[..i];
      i := i + 1;
    }
    assert options[..i] == options;
  }

  // ---------------------------------------------------------------------
  // Input attributes
  // ---------------------------------------------------------------------

  /** A boolean flag as an attribute value: '' (bare attribute) when set, null (omitted) otherwise. */
  function Flag(b: bool): Value {
    if b then Str("") else Null
  }

  /** The attributes of the input element: the three flags first, then `inputAttributes` assigned over them. */
  function InputAttrs(c: FieldConfig): Attrs {
    Assign([("disabled", Flag(c.disabled)), ("readonly", Flag(c.readonly)), ("required", Flag(c.required))],
           c.inputAttributes)
  }

  /** The names of the flags that are set, in the order disabled, readonly, required. */
  function SetFlags(c: FieldConfig): seq<string> {
    (if c.disabled then ["disabled"] else [])
    + (if c.readonly then ["readonly"] else [])
    + (if c.required then ["required"] else [])
  }

  /** Without `inputAttributes`, the attribute string is exactly the set flags, space-separated. */
  lemma {:induction false} InputAttrsFlagsOnly(c: FieldConfig)
    requires c.inputAttributes == []
    ensures AttrString(InputAttrs(c)) == Join(SetFlags(c), " ")
  {
    var d, r, q := ("disabled", Flag(c.disabled)), ("readonly", Flag(c.readonly)), ("required", Flag(c.required));
    assert InputAttrs(c) == [d] + [r] + [q];
    AttrEntriesAppend([d] + [r], [q]);
    AttrEntriesAppend([d], [r]);
    AttrEntriesSingle(d.0, d.1);
    AttrEntriesSingle(r.0, r.1);
    AttrEntriesSingle(q.0, q.1);
    var e := AttrEntries(InputAttrs(c));
    assert e == SetFlags(c);
  }

  /** The rendered readonly, required text field: `readonly required`. */
  lemma {:induction false} InputAttrsReadonlyRequired(c: FieldConfig)
    requires c.inputAttributes == [] && !c.disabled && c.readonly && c.required
    ensures AttrString(InputAttrs(c)) == "readonly required"
  {
    InputAttrsFlagsOnly(c);
    JoinAppend(["readonly"], ["required"], " ");
    assert SetFlags(c) == ["readonly"] + ["required"];
  }

  /**
   * A key set in `inputAttributes` takes that value, null included, which
   * then drops the attribute; a flag it does not set keeps the flag's value.
   */
  lemma {:induction false} InputAttrsOverride(c: FieldConfig, key: string)
    requires DistinctKeys(c.inputAttributes)
    ensures Get(c.inputAttributes, key).Some? ==> Get(InputAttrs(c), key) == Get(c.inputAttributes, key)
    ensures Get(c.inputAttributes, key).None? && key == "disabled" ==> Get(InputAttrs(c), key) == Some(Flag(c.disabled))
    ensures Get(c.inputAttributes, key).None? && key == "readonly" ==> Get(InputAttrs(c), key) == Some(Flag(c.readonly))
    ensures Get(c.inputAttributes, key).None? && key == "required" ==> Get(InputAttrs(c), key) == Some(Flag(c.required))
    ensures Get(InputAttrs(c), key) == Some(Null) ==>
              exists i :: 0 <= i < |InputAttrs(c)| && InputAttrs(c)[i] == (key, Null) &&
                          AttrString(InputAttrs(c)) == AttrString(InputAttrs(c)[..i] + InputAttrs(c)[i + 1..])
  {
    var flags := [("disabled", Flag(c.disabled)), ("readonly", Flag(c.readonly)), ("required", Flag(c.required))];
    AssignSpec(flags, c.inputAttributes);
    IndexOfKeyAt(flags, "disabled", 0);
    IndexOfKeyAt(flags, "readonly", 1);
    IndexOfKeyAt(flags, "required", 2);
    var a := InputAttrs(c);
    if Get(a, key) == Some(Null) {
      var i := IndexOfKey(a, key).value;
      NullEntryIgnored(a, i);
    }
  }

  // ---------------------------------------------------------------------
  // Rendering
  // ---------------------------------------------------------------------

  /** The variables of the input template. No `value` is among them. */
  function InputVars(c: FieldConfig): Vars {
    var choices := Choices(c.options, c.value);
    map[
      "name" := TStr(c.name),
      "type" := TStr(c.inputType),
      "attributes" := TStr(AttrString(InputAttrs(c))),
      "classes" := TStr(Join(c.inputClasses, " ")),
      "emptyOptionText" := TStr(c.emptyOptionText),
      "hasSelectedOption" := TBool(AnySelected(choices)),
      "options" := TChoices(choices)]
  }

  /** The variables of the outer field template, before the caller's own are laid over them. */
  function FieldVars(c: FieldConfig, inputHtml: string, errorsHtml: string): Vars {
    map[
      "name" := TStr(c.name),
      "fieldAttributes" := TStr(AttrString(c.fieldAttributes)),
      "fieldClasses" := TStr(Join(c.fieldClasses, " ")),
      "label" := TStr(c.labelText),
      "labelAttributes" := TStr(AttrString(c.labelAttributes)),
      "labelClasses" := TStr(Join(c.labelClasses, " ")),
      "note" := TStr(c.note),
      "noteClasses" := TStr(Join(c.noteClasses, " ")),
      "inputHtml" := TStr(inputHtml),
      "errorsHtml" := TStr(errorsHtml)]
  }

  /** The HTML `render(extra)` returns for a field with configuration `c` and stored errors `errors`. */
  function FieldHtml(c: FieldConfig, errors: seq<string>, m: Mustache, extra: Vars): string {
    var inputHtml := m(c.inputTemplate, InputVars(c));
    var errorsHtml := m(c.errorsTemplate, map["errors" := TStrs(errors)]);
    m(c.fieldTemplate, Overlay(FieldVars(c, inputHtml, errorsHtml), extra))
  }

  /**
   * `config.value` reaches the HTML only through the choice records: two
   * values that select the same options render the same field.
   */
  lemma {:induction false} FieldHtmlValueOnlySelects(c: FieldConfig, v: Value, errors: seq<string>, m: Mustache, extra: Vars)
    requires forall i :: 0 <= i < |c.options| ==> (v == Str(c.options[i].0) <==> c.value == Str(c.options[i].0))
    ensures FieldHtml(c.(value := v), errors, m, extra) == FieldHtml(c, errors, m, extra)
  {
    var c' := c.(value := v);
    var a, b := Choices(c'.options, v), Choices(c.options, c.value);
    assert |a| == |b|;
    assert forall i :: 0 <= i < |a| ==> a[i] == b[i];
    assert a == b;
    assert InputVars(c') == InputVars(c);
  }

  /** The input template is given no `value`: without options, `config.value` does not show in the HTML at all. */
  lemma {:induction false} FieldHtmlIgnoresValueWithoutOptions(c: FieldConfig, v: Value, errors: seq<string>, m: Mustache, extra: Vars)
    requires c.options == []
    ensures FieldHtml(c.(value := v), errors, m, extra) == FieldHtml(c, errors, m, extra)
    ensures "value" !in InputVars(c)
  {
    FieldHtmlValueOnlySelects(c, v, errors, m, extra);
  }

  /** Rendering does not depend on the required text or the validator, only on the stored errors. */
  lemma {:induction false} FieldHtmlIgnoresValidation(c: FieldConfig, requiredText: string, validateFunction: Option<Validator>,
                                                      errors: seq<string>, m: Mustache, extra: Vars)
    ensures FieldHtml(c.(requiredText := requiredText, validateFunction := validateFunction), errors, m, extra)
            == FieldHtml(c, errors, m, extra)
  {
    var c' := c.(requiredText := requiredText, validateFunction := validateFunction);
    assert InputAttrs(c') == InputAttrs(c);
    assert InputVars(c') == InputVars(c);
  }

  /**
   * The field template receives every caller variable with the caller's
   * value; a computed `inputHtml` or `errorsHtml` the caller does not
   * override is the input or errors template rendered on the field.
   */
  lemma {:induction false} FieldHtmlExtraReaches(c: FieldConfig, errors: seq<string>, m: Mustache, extra: Vars)
    ensures exists vars ::
              && FieldHtml(c, errors, m, extra) == m(c.fieldTemplate, vars)
              && (forall k :: k in extra ==> k in vars && vars[k] == extra[k])
              && ("inputHtml" !in extra ==> "inputHtml" in vars && vars["inputHtml"] == TStr(m(c.inputTemplate, InputVars(c))))
              && ("errorsHtml" !in extra ==> "errorsHtml" in vars && vars["errorsHtml"] == TStr(m(c.errorsTemplate, map["errors" := TStrs(errors)])))
  {
    var inputHtml := m(c.inputTemplate, InputVars(c));
    var errorsHtml := m(c.errorsTemplate, map["errors" := TStrs(errors)]);
    var vars := Overlay(FieldVars(c, inputHtml, errorsHtml), extra);
    assert FieldHtml(c, errors, m, extra) == m(c.fieldTemplate, vars);
  }

  // ---------------------------------------------------------------------
  // Validation
  // ---------------------------------------------------------------------

  /** The values the required check treats as missing: '', undefined and null (not an empty list). */
  predicate IsMissing(v: Value) {
    v == Str("") || v == Undef || v == Null
  }

  /** The error list `validate` computes: the required text first, then the validator's messages. */
  function ValidationErrors(c: FieldConfig, fieldName: string, fieldValue: Value, formData: Data): seq<string> {
    (if c.required && IsMissing(fieldValue) then [c.requiredText] else [])
    + CustomErrors(c, fieldName, fieldValue, formData)
  }

  /** The messages of the custom validator, if there is one. */
  function CustomErrors(c: FieldConfig, fieldName: string, fieldValue: Value, formData: Data): seq<string> {
    match c.validateFunction
    case None => []
    case Some(f) => f(fieldName, fieldValue, formData)
  }

  /**
   * The required text heads the list exactly when the field is required and
   * the value is missing; the validator's messages follow in their order; the
   * list is empty exactly when both parts are. Neither disabled nor readonly
   * is consulted.
   */
  lemma {:induction false} ValidationErrorsSpec(c: FieldConfig, fieldName: string, fieldValue: Value, formData: Data)
    ensures var r := ValidationErrors(c, fieldName, fieldValue, formData);
            var custom := CustomErrors(c, fieldName, fieldValue, formData);
            && (c.required && IsMissing(fieldValue) ==> |r| == 1 + |custom| && r[0] == c.requiredText && r[1..] == custom)
            && (!(c.required && IsMissing(fieldValue)) ==> r == custom)
            && (r == [] <==> !(c.required && IsMissing(fieldValue)) && custom == [])
    ensures c.required && fieldValue == Str("") ==>
              c.requiredText in ValidationErrors(c, fieldName, fieldValue, formData)
    ensures !IsMissing(List([])) && !IsMissing(Num(0))
  {
    var r := ValidationErrors(c, fieldName, fieldValue, formData);
    var custom := CustomErrors(c, fieldName, fieldValue, formData);
    if c.required && IsMissing(fieldValue) {
      assert r == [c.requiredText] + custom;
    } else {
      assert r == [] + custom;
    }
  }

  /** A field with only a required check: an empty submission yields exactly its required text. */
  lemma {:induction false} RequiredFieldExample(c: FieldConfig)
    requires c.required && c.requiredText == "What is your username?" && c.validateFunction.None?
    ensures ValidationErrors(c, "username", Str(""), map[]) == ["What is your username?"]
    ensures ValidationErrors(c, "username", Str("jane"), map[]) == []
  {
  }

  /** Disabled and readonly do not switch the required check off: an empty value still yields the required text. */
  lemma {:induction false} DisabledReadonlyStillRequired(c: FieldConfig, fieldName: string, formData: Data)
    requires c.required && c.disabled && c.readonly && c.validateFunction.None?
    ensures ValidationErrors(c, fieldName, Str(""), formData) == [c.requiredText]
    ensures c.requiredText == "" ==> ValidationErrors(c, fieldName, Str(""), formData) != []
  {
  }

  // ---------------------------------------------------------------------
  // The field object
  // ---------------------------------------------------------------------

  class Field {
    /** The merged configuration. */
    var config: FieldConfig
    /** The errors of the last `validate` call. */
    var errors: seq<string>
    /**
     * The instance property `value` that the form's data accessors read and
     * write. It is distinct from `config.value`, which is what `render` shows,
     * and it is unset (`undefined`) until a form writes it.
     */
    var value: Value

    /** `new Field(config)`: the defaults with every supplied key overriding its default; no errors yet. */
    constructor(supplied: FieldOptions)
      ensures config == MergeFieldConfig(FieldDefaults(), supplied)
      ensures errors == [] && value == Undef
    {
      config := MergeFieldConfig(FieldDefaults(), supplied);
      errors := [];
      value := Undef;
    }

    /** `render(templateVariables)`: reads the field and changes nothing. */
    method Render(m: Mustache, extra: Vars) returns (html: string)
      ensures html == FieldHtml(config, errors, m, extra)
    {
      var selectOptions, hasSelectedOption := BuildChoices(config.options, config.value);
      var attributes := AttributesToString(InputAttrs(config));
      var inputHtml := m(config.inputTemplate, map[
        "name" := TStr(config.name),
        "type" := TStr(config.inputType),
        "attributes" := TStr(attributes),
        "classes" := TStr(Join(config.inputClasses, " ")),
        "emptyOptionText" := TStr(config.emptyOptionText),
        "hasSelectedOption" := TBool(hasSelectedOption),
        "options" := TChoices(selectOptions)]);
      var errorsHtml := m(config.errorsTemplate, map["errors" := TStrs(errors)]);
      var fieldAttributes := AttributesToString(config.fieldAttributes);
      var labelAttributes := AttributesToString(config.labelAttributes);
      var vars := map[
        "name" := TStr(config.name),
        "fieldAttributes" := TStr(fieldAttributes),
        "fieldClasses" := TStr(Join(config.fieldClasses, " ")),
        "label" := TStr(config.labelText),
        "labelAttributes" := TStr(labelAttributes),
        "labelClasses" := TStr(Join(config.labelClasses, " ")),
        "note" := TStr(config.note),
        "noteClasses" := TStr(Join(config.noteClasses, " ")),
        "inputHtml" := TStr(inputHtml),
        "errorsHtml" := TStr(errorsHtml)];
      html := m(config.fieldTemplate, vars + extra);
    }

    /**
     * `validate(fieldName, fieldValue, formData)`: computes the error list,
     * stores exactly that list in `errors` and returns it. The configuration
     * and the stored value are left alone.
     */
    method Validate(fieldName: string, fieldValue: Value, formData: Data) returns (result: seq<string>)
      modifies this`errors
      ensures result == ValidationErrors(config, fieldName, fieldValue, formData)
      ensures errors == result
    {
      result := [];
      if config.required && (fieldValue == Str("") || fieldValue == Undef || fieldValue == Null) {
        result := result + [config.requiredText];
      }
      match config.validateFunction {
        case Some(f) => result := result + f(fieldName, fieldValue, formData);
        case None =>
      }
      errors := result;
    }
  }
}
