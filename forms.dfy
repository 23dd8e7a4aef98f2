/**
 * The form: shared configuration, an ordered collection of fields keyed by
 * name and an ordered collection of fieldsets. It reads and writes the
 * fields' values, renders the whole form (filling in per-field defaults as it
 * goes) and validates every field against submitted data.
 */
module Forms {
  import opened Values
  import opened Utils
  import opened Templates
  import opened Fields

  /**
   * The form configuration. `httpMethod` is the `method` key (a reserved
   * word here); `inputTemplates` maps an input type to its template.
   */
  datatype FormConfig = FormConfig(
    action: string,
    attributes: Attrs,
    classes: seq<string>,
    errorsTemplate: string,
    formTemplate: string,
    inputTemplates: map<string, string>,
    httpMethod: string,
    name: string,
    requiredText: string)

  /** The configuration object a caller passes to the constructor: `Some` for each key it sets. */
  datatype FormOptions = FormOptions(
    action: Option<string>,
    attributes: Option<Attrs>,
    classes: Option<seq<string>>,
    errorsTemplate: Option<string>,
    formTemplate: Option<string>,
    inputTemplates: Option<map<string, string>>,
    httpMethod: Option<string>,
    name: Option<string>,
    requiredText: Option<string>)

  function NoFormOptions(): FormOptions {
    FormOptions(None, None, None, None, None, None, None, None, None)
  }

  const DefaultErrorsTemplate: string :=
    "<div class=\"errors\">{{#errors}}<ul>" + "<li>{{.}}</li>" + "</ul>{{/errors}}</div>"

  const DefaultFormTemplate: string :=
    "<form name=\"{{name}}\" method=\"{{method}}\" action=\"{{{action}}}\" "
    + "{{{attributes}}} class=\"{{{classes}}}\">{{{formHtml}}}</form>"

  const ChoiceInputTemplate: string :=
    "{{#options}}"
    + "<input name=\"{{name}}\" type=\"{{type}}\" value=\"{{optionValue}}\" "
    + "{{{attributes}}} {{#optionSelected}}checked{{/optionSelected}} "
    + "class=\"{{{classes}}}\" />{{optionText}}"
    + "{{/options}}"

  /** The built-in input templates, keyed by input type. */
  function DefaultInputTemplates(): map<string, string> {
    map[
      "input" := "<input name=\"{{name}}\" type=\"{{type}}\" value=\"{{value}}\" "
                 + "{{{attributes}}} class=\"{{{classes}}}\" />",
      "checkbox" := ChoiceInputTemplate,
      "html" := "{{{value}}}",
      "radio" := ChoiceInputTemplate,
      "select" := "<select name=\"{{name}}\" {{{attributes}}} class=\"{{{classes}}}\"> "
                  + "<option value=\"\" {{^hasSelectedOption}}selected{{/hasSelectedOption}}>"
                  + "{{emptyOptionText}}</option>"
                  + "{{#options}}"
                  + "  <option value=\"{{optionValue}}\""
                  + "    {{#optionSelected}}selected{{/optionSelected}}>{{optionText}}</option>"
                  + "{{/options}}"
                  + "</select>",
      "textarea" := "<textarea name=\"{{name}}\" {{{attributes}}} "
                    + "class=\"{{{classes}}}\">{{{value}}}</textarea>"]
  }

  /** The configuration defaults of every form. */
  function FormDefaults(): FormConfig {
    FormConfig(
      action := "",
      attributes := [],
      classes := [],
      errorsTemplate := DefaultErrorsTemplate,
      formTemplate := DefaultFormTemplate,
      inputTemplates := DefaultInputTemplates(),
      httpMethod := "POST",
      name := "",
      requiredText := "This field is required.")
  }

  /** `Object.assign({}, base, supplied)`: each key the caller sets overrides the base value. */
  function MergeFormConfig(base: FormConfig, o: FormOptions): FormConfig {
    FormConfig(
      o.action.GetOr(base.action),
      o.attributes.GetOr(base.attributes),
      o.classes.GetOr(base.classes),
      o.errorsTemplate.GetOr(base.errorsTemplate),
      o.formTemplate.GetOr(base.formTemplate),
      o.inputTemplates.GetOr(base.inputTemplates),
      o.httpMethod.GetOr(base.httpMethod),
      o.name.GetOr(base.name),
      o.requiredText.GetOr(base.requiredText))
  }

  /** A configuration object that sets every key to the value `c` has. */
  function AllFormOptions(c: FormConfig): FormOptions {
    FormOptions(Some(c.action), Some(c.attributes), Some(c.classes), Some(c.errorsTemplate),
                Some(c.formTemplate), Some(c.inputTemplates), Some(c.httpMethod), Some(c.name),
                Some(c.requiredText))
  }

  /** Merging: no keys give the base back, all keys give the supplied values, and merging twice changes nothing. */
  lemma {:induction false} MergeFormConfigSpec(base: FormConfig, o: FormOptions, c: FormConfig)
    ensures MergeFormConfig(base, NoFormOptions()) == base
    ensures MergeFormConfig(base, AllFormOptions(c)) == c
    ensures MergeFormConfig(MergeFormConfig(base, o), o) == MergeFormConfig(base, o)
    ensures o.requiredText.Some? ==> MergeFormConfig(base, o).requiredText == o.requiredText.value
    ensures o.requiredText.None? ==> MergeFormConfig(base, o).requiredText == base.requiredText
  {
  }

  /** The part of a fieldset's configuration the form uses: its member names, and what its template shows. */
  datatype FieldsetConfig = FieldsetConfig(
    fieldNames: seq<string>,
    fieldsetAttributes: Attrs,
    fieldsetClasses: seq<string>,
    fieldsetTemplate: string,
    legend: string,
    name: string)

  // ---------------------------------------------------------------------
  // Default resolution during render
  // ---------------------------------------------------------------------

  /** `inputTemplates[inputType] || inputTemplates['input']`, a missing template reading as ''. */
  function InputTemplateFor(templates: map<string, string>, inputType: string): string {
    if inputType in templates && templates[inputType] != "" then templates[inputType]
    else if "input" in templates then templates["input"]
    else ""
  }

  /** The four defaults `render` writes into a field's configuration when the field left them empty. */
  function ResolveDefaults(c: FieldConfig, key: string, form: FormConfig): FieldConfig {
    c.(name := if c.name != "" then c.name else key,
       errorsTemplate := if c.errorsTemplate != "" then c.errorsTemplate else form.errorsTemplate,
       inputTemplate := if c.inputTemplate != "" then c.inputTemplate
                        else InputTemplateFor(form.inputTemplates, c.inputType),
       requiredText := if c.requiredText != "" then c.requiredText else form.requiredText)
  }

  /**
   * A non-empty name, errors template, input template or required text is
   * kept; an empty one takes the field's key, the form's errors template, the
   * form's template for the input type (else for 'input') and the form's
   * required text. Nothing else changes, and resolving twice is resolving once.
   */
  lemma {:induction false} ResolveDefaultsSpec(c: FieldConfig, key: string, form: FormConfig)
    ensures var r := ResolveDefaults(c, key, form);
            && (c.name != "" ==> r.name == c.name)
            && (c.name == "" ==> r.name == key)
            && (c.errorsTemplate != "" ==> r.errorsTemplate == c.errorsTemplate)
            && (c.errorsTemplate == "" ==> r.errorsTemplate == form.errorsTemplate)
            && (c.inputTemplate != "" ==> r.inputTemplate == c.inputTemplate)
            && (c.inputTemplate == "" && c.inputType in form.inputTemplates && form.inputTemplates[c.inputType] != ""
                ==> r.inputTemplate == form.inputTemplates[c.inputType])
            && ((c.inputTemplate == "" && (c.inputType !in form.inputTemplates || form.inputTemplates[c.inputType] == "")
                 && "input" in form.inputTemplates) ==> r.inputTemplate == form.inputTemplates["input"])
            && (c.requiredText != "" ==> r.requiredText == c.requiredText)
            && (c.requiredText == "" ==> r.requiredText == form.requiredText)
            && r.(name := c.name, errorsTemplate := c.errorsTemplate,
                  inputTemplate := c.inputTemplate, requiredText := c.requiredText) == c
            && ResolveDefaults(r, key, form) == r
  {
  }

  /** Every configuration resolved against its own key and the form's configuration, in order. */
  function ResolveAll(keys: seq<string>, configs: seq<FieldConfig>, form: FormConfig): (r: seq<FieldConfig>)
    requires |keys| == |configs|
    ensures |r| == |keys|
    ensures forall j {:trigger r[j]} :: 0 <= j < |keys| ==> r[j] == ResolveDefaults(configs[j], keys[j], form)
  {
    seq(|keys|, j requires 0 <= j < |keys| => ResolveDefaults(configs[j], keys[j], form))
  }

  /** `fieldset.config.name || fieldsetName`. */
  function ResolveFieldset(key: string, fs: FieldsetConfig): FieldsetConfig {
    fs.(name := if fs.name != "" then fs.name else key)
  }

  /** Every fieldset with its name resolved against its own key; keys and order are kept. */
  function ResolveFieldsets(fieldsets: seq<(string, FieldsetConfig)>): (r: seq<(string, FieldsetConfig)>)
    ensures |r| == |fieldsets|
    ensures forall j :: 0 <= j < |r| ==> r[j] == (fieldsets[j].0, ResolveFieldset(fieldsets[j].0, fieldsets[j].1))
    ensures DistinctKeys(fieldsets) ==> DistinctKeys(r)
  {
    if |fieldsets| == 0 then []
    else
      var n := |fieldsets| - 1;
      ResolveFieldsets(fieldsets[..n]) + [(fieldsets[n].0, ResolveFieldset(fieldsets[n].0, fieldsets[n].1))]
  }

  /** Resolving every field's defaults a second time changes nothing. */
  lemma {:induction false} ResolveAllIdempotent(keys: seq<string>, configs: seq<FieldConfig>, form: FormConfig)
    requires |keys| == |configs|
    ensures ResolveAll(keys, ResolveAll(keys, configs, form), form) == ResolveAll(keys, configs, form)
  {
    var once := ResolveAll(keys, configs, form);
    forall j | 0 <= j < |keys|
      ensures ResolveDefaults(once[j], keys[j], form) == once[j]
    {
      ResolveDefaultsSpec(configs[j], keys[j], form);
    }
  }

  /** Resolving the fieldsets' names a second time changes nothing. */
  lemma {:induction false} ResolveFieldsetsIdempotent(fieldsets: seq<(string, FieldsetConfig)>)
    ensures ResolveFieldsets(ResolveFieldsets(fieldsets)) == ResolveFieldsets(fieldsets)
  {
    var once := ResolveFieldsets(fieldsets);
    var twice := ResolveFieldsets(once);
    assert forall j :: 0 <= j < |once| ==> twice[j] == once[j];
  }

  // ---------------------------------------------------------------------
  // Body assembly
  // ---------------------------------------------------------------------

  /** `htmlByField[fieldName] || ''`. */
  function HtmlOf(byField: seq<(string, string)>, name: string): string {
    Get(byField, name).GetOr("")
  }

  /** A fieldset's `fieldsHtml`: the HTML of each listed name, each followed by a newline. */
  function FieldsHtml(names: seq<string>, byField: seq<(string, string)>): string {
    if |names| == 0 then ""
    else FieldsHtml(names[..|names| - 1], byField) + HtmlOf(byField, names[|names| - 1]) + "\n"
  }

  lemma {:induction false} FieldsHtmlAppend(a: seq<string>, b: seq<string>, byField: seq<(string, string)>)
    ensures FieldsHtml(a + b, byField) == FieldsHtml(a, byField) + FieldsHtml(b, byField)
    decreases |b|
  {
    if |b| == 0 {
      assert a + b == a;
    } else {
      var b' := b[..|b| - 1];
      assert (a + b)[..|a + b| - 1] == a + b';
      FieldsHtmlAppend(a, b', byField);
    }
  }

  /** Each listed name contributes its field's HTML and a newline; an unknown name only the newline. */
  lemma {:induction false} FieldsHtmlSpec(names: seq<string>, name: string, byField: seq<(string, string)>)
    ensures FieldsHtml(names + [name], byField) == FieldsHtml(names, byField) + HtmlOf(byField, name) + "\n"
    ensures (forall i :: 0 <= i < |byField| ==> byField[i].0 != name) ==> FieldsHtml([name], byField) == "\n"
  {
    assert (names + [name])[..|names|] == names;
    assert [name][..0] == [];
  }

  function FieldsetVars(fs: FieldsetConfig): Vars {
    map[
      "name" := TStr(fs.name),
      "fieldsetAttributes" := TStr(AttrString(fs.fieldsetAttributes)),
      "fieldsetClasses" := TStr(Join(fs.fieldsetClasses, " ")),
      "legend" := TStr(fs.legend)]
  }

  /** `fieldset.render({ fieldsHtml })`. */
  function FieldsetHtml(fs: FieldsetConfig, fieldsHtml: string, m: Mustache): string {
    m(fs.fieldsetTemplate, Overlay(FieldsetVars(fs), map["fieldsHtml" := TStr(fieldsHtml)]))
  }

  /** The fieldsets rendered in order, each with the HTML of its listed fields, concatenated. */
  function FieldsetsHtml(fieldsets: seq<(string, FieldsetConfig)>, byField: seq<(string, string)>, m: Mustache): string {
    if |fieldsets| == 0 then ""
    else
      var fs := fieldsets[|fieldsets| - 1].1;
      FieldsetsHtml(fieldsets[..|fieldsets| - 1], byField, m) + FieldsetHtml(fs, FieldsHtml(fs.fieldNames, byField), m)
  }

  function Htmls(byField: seq<(string, string)>): (r: seq<string>)
    ensures |r| == |byField| && forall i :: 0 <= i < |r| ==> r[i] == byField[i].1
  {
    seq(|byField|, i requires 0 <= i < |byField| => byField[i].1)
  }

  /** The form body: every field's HTML joined by newlines, or, with fieldsets, the rendered fieldsets. */
  function Body(byField: seq<(string, string)>, fieldsets: seq<(string, FieldsetConfig)>, m: Mustache): string {
    if |fieldsets| == 0 then Join(Htmls(byField), "\n") else FieldsetsHtml(fieldsets, byField, m)
  }

  function FormVars(c: FormConfig, attributes: string, formHtml: string): Vars {
    map[
      "name" := TStr(c.name),
      "method" := TStr(c.httpMethod),
      "action" := TStr(c.action),
      "attributes" := TStr(attributes),
      "classes" := TStr(Join(c.classes, " ")),
      "formHtml" := TStr(formHtml)]
  }

  /** The HTML `render(extra)` returns, given the rendered fields and the resolved fieldsets. */
  function FormHtml(c: FormConfig, byField: seq<(string, string)>, fieldsets: seq<(string, FieldsetConfig)>,
                    m: Mustache, extra: Vars): string {
    m(c.formTemplate, Overlay(FormVars(c, AttrString(c.attributes), Body(byField, fieldsets, m)), extra))
  }

  /** The rendered fields with the HTML of field `key` replaced by `html`. */
  function ReplaceHtml(byField: seq<(string, string)>, key: string, html: string): (r: seq<(string, string)>)
    ensures |r| == |byField|
    ensures forall i :: 0 <= i < |r| ==> r[i] == if byField[i].0 == key then (key, html) else byField[i]
  {
    seq(|byField|, i requires 0 <= i < |byField| => if byField[i].0 == key then (key, html) else byField[i])
  }

  lemma {:induction false} HtmlOfReplace(byField: seq<(string, string)>, key: string, html: string, name: string)
    requires name != key
    ensures HtmlOf(ReplaceHtml(byField, key, html), name) == HtmlOf(byField, name)
  {
    var r := ReplaceHtml(byField, key, html);
    match IndexOfKey(byField, name) {
      case None =>
        assert forall i :: 0 <= i < |r| ==> r[i].0 != name;
      case Some(i) =>
        IndexOfKeyAt(r, name, i);
    }
  }

  lemma {:induction false} FieldsHtmlReplace(names: seq<string>, byField: seq<(string, string)>, key: string, html: string)
    requires key !in names
    ensures FieldsHtml(names, ReplaceHtml(byField, key, html)) == FieldsHtml(names, byField)
    decreases |names|
  {
    if |names| > 0 {
      FieldsHtmlReplace(names[..|names| - 1], byField, key, html);
      HtmlOfReplace(byField, key, html, names[|names| - 1]);
    }
  }

  lemma {:induction false} FieldsetsHtmlReplace(fieldsets: seq<(string, FieldsetConfig)>, byField: seq<(string, string)>,
                                               m: Mustache, key: string, html: string)
    requires forall j :: 0 <= j < |fieldsets| ==> key !in fieldsets[j].1.fieldNames
    ensures FieldsetsHtml(fieldsets, ReplaceHtml(byField, key, html), m) == FieldsetsHtml(fieldsets, byField, m)
    decreases |fieldsets|
  {
    if |fieldsets| > 0 {
      FieldsetsHtmlReplace(fieldsets[..|fieldsets| - 1], byField, m, key, html);
      FieldsHtmlReplace(fieldsets[|fieldsets| - 1].1.fieldNames, byField, key, html);
    }
  }

  /**
   * Once a fieldset exists, a field that no fieldset lists contributes
   * nothing: whatever its HTML, the body is the same.
   */
  lemma {:induction false} FieldsetExclusion(byField: seq<(string, string)>, fieldsets: seq<(string, FieldsetConfig)>,
                          m: Mustache, key: string, html: string)
    requires |fieldsets| > 0
    requires forall j :: 0 <= j < |fieldsets| ==> key !in fieldsets[j].1.fieldNames
    ensures Body(ReplaceHtml(byField, key, html), fieldsets, m) == Body(byField, fieldsets, m)
  {
    FieldsetsHtmlReplace(fieldsets, byField, m, key, html);
  }

  /** Without fieldsets, one more field adds a newline and its HTML at the end of the body. */
  lemma {:induction false} BodyWithoutFieldsets(byField: seq<(string, string)>, key: string, html: string, m: Mustache)
    requires |byField| > 0
    ensures Body(byField + [(key, html)], [], m) == Body(byField, [], m) + "\n" + html
  {
    assert Htmls(byField + [(key, html)]) == Htmls(byField) + [html];
    JoinAppend(Htmls(byField), [html], "\n");
  }

  /** The inner loop of `render`: the HTML of each listed field name, each followed by a newline. */
  method ListedFieldsHtml(names: seq<string>, byField: seq<(string, string)>) returns (fieldsHtml: string)
    ensures fieldsHtml == FieldsHtml(names, byField)
  {
    fieldsHtml := "";
    var k := 0;
    while k < |names|
      invariant 0 <= k <= |names|
      invariant fieldsHtml == FieldsHtml(names[..k], byField)
    {
      fieldsHtml := fieldsHtml + HtmlOf(byField, names[k]) + "\n";
      assert names[..k + 1][..k] == names[..k];
      k := k + 1;
    }
    assert names[..k] == names;
  }

  // ---------------------------------------------------------------------
  // Collected validation errors
  // ---------------------------------------------------------------------

  /** The errors object `validate` builds: `errors[key] = list` for each key whose list is non-empty, in order. */
  function CollectErrors(keys: seq<string>, errs: seq<seq<string>>): seq<(string, seq<string>)>
    requires |keys| == |errs|
  {
    if |keys| == 0 then []
    else
      var n := |keys| - 1;
      var rest := CollectErrors(keys[..n], errs[..n]);
      if errs[n] != [] then Put(rest, keys[n], errs[n]) else rest
  }

  /** Each of the first `|keys|` error lists is what its field's configuration gives for `formData`. */
  ghost predicate AllValidated(configs: seq<FieldConfig>, keys: seq<string>, errs: seq<seq<string>>, formData: Data)
    requires |configs| >= |keys| == |errs|
  {
    forall j {:trigger errs[j]} :: 0 <= j < |keys| ==>
      errs[j] == ValidationErrors(configs[j], keys[j], DataGet(formData, keys[j]), formData)
  }

  /** The state `validate` keeps after the fields `keys`: their error lists, the flag and the errors object. */
  ghost predicate Collected(configs: seq<FieldConfig>, keys: seq<string>, errs: seq<seq<string>>, formData: Data,
                            errors: seq<(string, seq<string>)>, hasErrors: bool)
  {
    && |keys| == |errs| <= |configs|
    && AllValidated(configs, keys, errs, formData)
    && hasErrors == AnyErrors(errs)
    && errors == CollectErrors(keys, errs)
  }

  predicate AnyErrors(errs: seq<seq<string>>) {
    exists i :: 0 <= i < |errs| && errs[i] != []
  }

  /** What `validate` returns: null when no list has an error, otherwise the collected errors. */
  function FormErrors(keys: seq<string>, errs: seq<seq<string>>): Option<seq<(string, seq<string>)>>
    requires |keys| == |errs|
  {
    if AnyErrors(errs) then Some(CollectErrors(keys, errs)) else None
  }

  lemma {:induction false} CollectErrorsSnoc(keys: seq<string>, errs: seq<seq<string>>, key: string, e: seq<string>)
    requires |keys| == |errs|
    ensures CollectErrors(keys + [key], errs + [e])
            == if e != [] then Put(CollectErrors(keys, errs), key, e) else CollectErrors(keys, errs)
    ensures AnyErrors(errs + [e]) == (AnyErrors(errs) || e != [])
  {
    assert (keys + [key])[..|keys|] == keys;
    assert (errs + [e])[..|errs|] == errs;
    if AnyErrors(errs) {
      var i :| 0 <= i < |errs| && errs[i] != [];
      assert (errs + [e])[i] == errs[i];
    }
    if AnyErrors(errs + [e]) && e == [] {
      var i :| 0 <= i < |errs| + 1 && (errs + [e])[i] != [];
      assert errs[i] != [];
    }
  }

  /** One step of `CollectErrors`: only the last key can change, and only when its list is non-empty. */
  lemma {:induction false} CollectErrorsStep(keys: seq<string>, errs: seq<seq<string>>, k: string)
    requires |keys| == |errs| > 0
    requires DistinctKeys(CollectErrors(keys[..|keys| - 1], errs[..|errs| - 1]))
    ensures DistinctKeys(CollectErrors(keys, errs))
    ensures var n := |keys| - 1;
            Get(CollectErrors(keys, errs), k)
            == if k == keys[n] && errs[n] != [] then Some(errs[n]) else Get(CollectErrors(keys[..n], errs[..n]), k)
  {
    var n := |keys| - 1;
    if errs[n] != [] {
      PutSpec(CollectErrors(keys[..n], errs[..n]), keys[n], errs[n]);
    }
  }

  lemma {:induction false} CollectedStep(configs: seq<FieldConfig>, keys: seq<string>, errs: seq<seq<string>>, formData: Data,
                      errors: seq<(string, seq<string>)>, hasErrors: bool, key: string, e: seq<string>)
    requires Collected(configs, keys, errs, formData, errors, hasErrors)
    requires |keys| < |configs|
    requires e == ValidationErrors(configs[|keys|], key, DataGet(formData, key), formData)
    ensures Collected(configs, keys + [key], errs + [e], formData,
                      if e != [] then Put(errors, key, e) else errors, hasErrors || e != [])
  {
    CollectErrorsSnoc(keys, errs, key, e);
    var keys', errs' := keys + [key], errs + [e];
    forall j | 0 <= j < |keys'|
      ensures errs'[j] == ValidationErrors(configs[j], keys'[j], DataGet(formData, keys'[j]), formData)
    {
      if j < |keys| {
        assert errs'[j] == errs[j];
      }
    }
  }

  /**
   * With distinct keys, the collected errors hold each key whose list is
   * non-empty, with that list, and no other key.
   */
  lemma {:induction false} CollectErrorsSpec(keys: seq<string>, errs: seq<seq<string>>)
    requires |keys| == |errs|
    requires forall i, j :: 0 <= i < j < |keys| ==> keys[i] != keys[j]
    ensures DistinctKeys(CollectErrors(keys, errs))
    ensures forall i :: 0 <= i < |keys| ==>
              Get(CollectErrors(keys, errs), keys[i]) == if errs[i] != [] then Some(errs[i]) else None
    ensures forall k :: k !in keys ==> Get(CollectErrors(keys, errs), k) == None
    decreases |keys|
  {
    if |keys| > 0 {
      var n := |keys| - 1;
      var keys', errs' := keys[..n], errs[..n];
      CollectErrorsSpec(keys', errs');
      CollectErrorsStep(keys, errs, keys[n]);
      forall i | 0 <= i < |keys|
        ensures Get(CollectErrors(keys, errs), keys[i]) == if errs[i] != [] then Some(errs[i]) else None
      {
        CollectErrorsStep(keys, errs, keys[i]);
        if i < n {
          assert keys'[i] == keys[i] && errs'[i] == errs[i];
        } else {
          assert keys[n] !in keys' by {
            assert forall j :: 0 <= j < n ==> keys'[j] == keys[j] != keys[n];
          }
        }
      }
      forall k | k !in keys
        ensures Get(CollectErrors(keys, errs), k) == None
      {
        CollectErrorsStep(keys, errs, k);
        assert k !in keys' by {
          assert forall j :: 0 <= j < n ==> keys'[j] == keys[j];
        }
      }
    }
  }

  /**
   * The result of `validate` is null exactly when every field's list is
   * empty; otherwise each field with errors maps to its own list, and no
   * other key is present.
   */
  lemma {:induction false} FormErrorsSpec(keys: seq<string>, errs: seq<seq<string>>)
    requires |keys| == |errs|
    requires forall i, j :: 0 <= i < j < |keys| ==> keys[i] != keys[j]
    ensures FormErrors(keys, errs).None? <==> forall i :: 0 <= i < |errs| ==> errs[i] == []
    ensures FormErrors(keys, errs).Some? ==>
              && DistinctKeys(FormErrors(keys, errs).value)
              && (forall i :: 0 <= i < |keys| ==>
                    Get(FormErrors(keys, errs).value, keys[i]) == if errs[i] != [] then Some(errs[i]) else None)
              && (forall k :: k !in keys ==> Get(FormErrors(keys, errs).value, k) == None)
  {
    CollectErrorsSpec(keys, errs);
  }

  // ---------------------------------------------------------------------
  // Views of a field collection in the current state
  // ---------------------------------------------------------------------

  /** No field object is held under two keys. */
  ghost predicate DistinctFields(entries: seq<(string, Field)>) {
    forall i, j :: 0 <= i < |entries| && 0 <= j < |entries| && i != j ==> entries[i].1 != entries[j].1
  }

  ghost function FieldObjects(entries: seq<(string, Field)>): set<Field> {
    set i | 0 <= i < |entries| :: entries[i].1
  }

  /** Each field's configuration, in order. */
  ghost function ConfigsOf(entries: seq<(string, Field)>): (r: seq<FieldConfig>)
    reads FieldObjects(entries)
    ensures |r| == |entries|
    ensures forall i {:trigger r[i]} :: 0 <= i < |entries| ==> r[i] == entries[i].1.config
  {
    seq(|entries|, i requires 0 <= i < |entries| reads FieldObjects(entries) => entries[i].1.config)
  }

  /** Each field's stored error list, in order. */
  ghost function ErrorListsOf(entries: seq<(string, Field)>): (r: seq<seq<string>>)
    reads FieldObjects(entries)
    ensures |r| == |entries|
    ensures forall i {:trigger r[i]} :: 0 <= i < |entries| ==> r[i] == entries[i].1.errors
  {
    seq(|entries|, i requires 0 <= i < |entries| reads FieldObjects(entries) => entries[i].1.errors)
  }

  /** The entries `key -> render()` of fields with the given keys, configurations and stored errors. */
  function RenderedWith(keys: seq<string>, configs: seq<FieldConfig>, errs: seq<seq<string>>, m: Mustache)
    : (r: seq<(string, string)>)
    requires |keys| == |configs| == |errs|
    ensures |r| == |keys|
    ensures forall j {:trigger r[j]} :: 0 <= j < |keys| ==> r[j] == (keys[j], FieldHtml(configs[j], errs[j], m, map[]))
  {
    seq(|keys|, j requires 0 <= j < |keys| => (keys[j], FieldHtml(configs[j], errs[j], m, map[])))
  }

  /** What each field's `render()` returns in the current state, keyed by field key. */
  ghost function RenderedOf(entries: seq<(string, Field)>, m: Mustache): seq<(string, string)>
    reads FieldObjects(entries)
  {
    RenderedWith(Keys(entries), ConfigsOf(entries), ErrorListsOf(entries), m)
  }

  /**
   * The field loop of `render`: for each entry in order, fills the field's
   * empty defaults from the form's configuration, then renders the field.
   */
  method ResolveAndRenderFields(entries: seq<(string, Field)>, form: FormConfig, m: Mustache)
    returns (byField: seq<(string, string)>)
    requires DistinctFields(entries)
    modifies FieldObjects(entries)`config
    ensures ConfigsOf(entries) == ResolveAll(Keys(entries), old(ConfigsOf(entries)), form)
    ensures byField == RenderedOf(entries, m)
  {
    ghost var configs := ConfigsOf(entries);
    ghost var errs := ErrorListsOf(entries);
    ghost var resolved := ResolveAll(Keys(entries), configs, form);
    ghost var expected := RenderedWith(Keys(entries), resolved, errs, m);
    byField := [];
    var i := 0;
    while i < |entries|
      invariant 0 <= i <= |entries|
      invariant byField == expected[..i]
      invariant forall j {:trigger entries[j]} :: 0 <= j < |entries| ==>
                  entries[j].1.config == if j < i then resolved[j] else configs[j]
    {
      var (key, field) := entries[i];
      field.config := ResolveDefaults(field.config, key, form);
      var fieldHtml := field.Render(m, map[]);
      assert expected[i] == (key, fieldHtml);
      byField := byField + [(key, fieldHtml)];
      i := i + 1;
    }
    assert ConfigsOf(entries) == resolved;
    assert ErrorListsOf(entries) == errs;
  }

  /**
   * The field loop of `validate`: validates each field in order against
   * `formData[key]` and collects the keys whose error lists are non-empty.
   */
  method ValidateFields(entries: seq<(string, Field)>, formData: Data)
    returns (result: Option<seq<(string, seq<string>)>>)
    requires DistinctFields(entries)
    modifies FieldObjects(entries)`errors
    ensures AllValidated(ConfigsOf(entries), Keys(entries), ErrorListsOf(entries), formData)
    ensures result == FormErrors(Keys(entries), ErrorListsOf(entries))
  {
    ghost var configs := ConfigsOf(entries);
    ghost var keys: seq<string> := [];
    ghost var errs: seq<seq<string>> := [];
    var errors: seq<(string, seq<string>)> := [];
    var hasErrors := false;
    var i := 0;
    while i < |entries|
      invariant 0 <= i <= |entries|
      invariant |keys| == |errs| == i
      invariant forall j {:trigger entries[j]} :: 0 <= j < i ==>
                  keys[j] == entries[j].0 && entries[j].1.errors == errs[j]
      invariant Collected(configs, keys, errs, formData, errors, hasErrors)
    {
      var (key, field) := entries[i];
      assert field.config == configs[i];
      var fieldErrors := field.Validate(key, DataGet(formData, key), formData);
      CollectedStep(configs, keys, errs, formData, errors, hasErrors, key, fieldErrors);
      if |fieldErrors| > 0 {
        hasErrors := true;
        errors := Put(errors, key, fieldErrors);
      }
      keys, errs := keys + [key], errs + [fieldErrors];
      i := i + 1;
    }
    result := if hasErrors then Some(errors) else None;
    assert keys == Keys(entries);
    assert errs == ErrorListsOf(entries);
    assert configs == ConfigsOf(entries);
  }

  /**
   * The body of `render`: with no fieldsets, the rendered fields joined by
   * newlines; otherwise each fieldset, its name resolved, rendered with its
   * listed fields. Also returns the fieldsets with their names resolved.
   */
  method RenderBody(byField: seq<(string, string)>, fieldsets: seq<(string, FieldsetConfig)>, m: Mustache)
    returns (resolved: seq<(string, FieldsetConfig)>, formHtml: string)
    ensures resolved == ResolveFieldsets(fieldsets)
    ensures formHtml == Body(byField, resolved, m)
  {
    if |fieldsets| == 0 {
      resolved := fieldsets;
      formHtml := Join(Htmls(byField), "\n");
      return;
    }
    resolved := [];
    formHtml := "";
    var j := 0;
    while j < |fieldsets|
      invariant 0 <= j <= |fieldsets|
      invariant resolved == ResolveFieldsets(fieldsets[..j])
      invariant formHtml == FieldsetsHtml(resolved, byField, m)
    {
      var (fsKey, fieldset) := fieldsets[j];
      fieldset := ResolveFieldset(fsKey, fieldset);
      var fieldsHtml := ListedFieldsHtml(fieldset.fieldNames, byField);
      formHtml := formHtml + FieldsetHtml(fieldset, fieldsHtml, m);
      assert (resolved + [(fsKey, fieldset)])[..j] == resolved;
      assert fieldsets[..j + 1][..j] == fieldsets[..j];
      resolved := resolved + [(fsKey, fieldset)];
      j := j + 1;
    }
    assert fieldsets[..j] == fieldsets;
  }

  // ---------------------------------------------------------------------
  // The form object
  // ---------------------------------------------------------------------

  class Form {
    var config: FormConfig
    /** The `fields` Map: field key and Field object, in insertion order. */
    var fields: seq<(string, Field)>
    /** The `fieldsets` Map: fieldset key and configuration, in insertion order. */
    var fieldsets: seq<(string, FieldsetConfig)>

    /** Keys are unique in each Map, and no Field object is held under two keys. */
    ghost predicate Valid()
      reads this
    {
      && DistinctKeys(fields)
      && DistinctKeys(fieldsets)
      && DistinctFields(fields)
    }

    ghost function Objects(): set<Field>
      reads this
    {
      FieldObjects(fields)
    }

    /** Each field's configuration with the defaults `render` fills in. */
    ghost function ResolvedConfigs(): (r: seq<FieldConfig>)
      reads this, Objects()
      ensures |r| == |fields|
      ensures forall i {:trigger r[i]} :: 0 <= i < |fields| ==> r[i] == ResolveDefaults(fields[i].1.config, fields[i].0, config)
    {
      seq(|fields|, i requires 0 <= i < |fields| reads this, Objects() =>
            ResolveDefaults(fields[i].1.config, fields[i].0, config))
    }

    /** `new Form(config)`: the defaults with every supplied key overriding its default; no fields or fieldsets. */
    constructor(supplied: FormOptions)
      ensures config == MergeFormConfig(FormDefaults(), supplied)
      ensures fields == [] && fieldsets == []
      ensures Valid()
    {
      config := MergeFormConfig(FormDefaults(), supplied);
      fields := [];
      fieldsets := [];
    }

    /** `fields.set(key, field)`: an existing key keeps its position, a new one goes last. */
    method SetField(key: string, field: Field)
      requires Valid()
      requires forall i :: 0 <= i < |fields| && fields[i].1 == field ==> fields[i].0 == key
      modifies this
      ensures Valid()
      ensures fields == Put(old(fields), key, field)
      ensures config == old(config) && fieldsets == old(fieldsets)
    {
      PutSpec(fields, key, field);
      match IndexOfKey(fields, key) {
        case None =>
        case Some(k) =>
          assert forall i :: 0 <= i < |fields| && i != k ==> fields[i].0 != key;
      }
      fields := Put(fields, key, field);
    }

    /** `fieldsets.set(key, fieldset)`. */
    method SetFieldset(key: string, fieldset: FieldsetConfig)
      requires Valid()
      modifies this
      ensures Valid()
      ensures fieldsets == Put(old(fieldsets), key, fieldset)
      ensures config == old(config) && fields == old(fields)
    {
      PutSpec(fieldsets, key, fieldset);
      fieldsets := Put(fieldsets, key, fieldset);
    }

    /** `getData()`: a mapping from exactly the field keys to each field's value. */
    method GetData() returns (data: Data)
      requires Valid()
      ensures data.Keys == set i | 0 <= i < |fields| :: fields[i].0
      ensures forall i :: 0 <= i < |fields| ==> data[fields[i].0] == fields[i].1.value
    {
      data := map[];
      var i := 0;
      while i < |fields|
        invariant 0 <= i <= |fields|
        invariant data.Keys == set j | 0 <= j < i :: fields[j].0
        invariant forall j :: 0 <= j < i ==> data[fields[j].0] == fields[j].1.value
      {
        data := data[fields[i].0 := fields[i].1.value];
        i := i + 1;
      }
    }

    /** `setData(formData)`: fields named in `data` take its value; other fields and unknown keys are left alone. */
    method SetData(data: Data)
      requires Valid()
      modifies Objects()`value
      ensures forall i :: 0 <= i < |fields| ==>
                fields[i].1.value == if fields[i].0 in data then data[fields[i].0] else old(fields[i].1.value)
    {
      var pending := data.Keys;
      while pending != {}
        invariant pending <= data.Keys
        invariant forall i :: 0 <= i < |fields| ==>
                    fields[i].1.value == if fields[i].0 in data && fields[i].0 !in pending
                                         then data[fields[i].0] else old(fields[i].1.value)
        decreases pending
      {
        var key :| key in pending;
        match IndexOfKey(fields, key) {
          case Some(k) =>
            fields[k].1.value := data[key];
          case None =>
        }
        pending := pending - {key};
      }
    }

    /** `clearData()`: every field's value becomes ''. */
    method ClearData()
      modifies Objects()`value
      ensures forall i :: 0 <= i < |fields| ==> fields[i].1.value == Str("")
    {
      var i := 0;
      while i < |fields|
        invariant 0 <= i <= |fields|
        invariant forall j :: 0 <= j < i ==> fields[j].1.value == Str("")
      {
        fields[i].1.value := Str("");
        i := i + 1;
      }
    }

    /**
     * `render(extra)`: writes the resolved defaults into every field's
     * configuration and the resolved name into every fieldset, then renders
     * the form around the assembled body.
     */
    method Render(m: Mustache, extra: Vars) returns (html: string)
      requires Valid()
      modifies this`fieldsets, Objects()`config
      ensures Valid()
      ensures ConfigsOf(fields) == ResolveAll(Keys(fields), old(ConfigsOf(fields)), config)
      ensures fieldsets == ResolveFieldsets(old(fieldsets))
      ensures html == FormHtml(config, RenderedOf(fields, m), fieldsets, m, extra)
    {
      var attributes := AttributesToString(config.attributes);
      var byField := ResolveAndRenderFields(fields, config, m);
      ghost var rendered := RenderedOf(fields, m);
      var resolvedFieldsets, formHtml := RenderBody(byField, fieldsets, m);
      html := m(config.formTemplate, Overlay(FormVars(config, attributes, formHtml), extra));
      assert html == FormHtml(config, rendered, resolvedFieldsets, m, extra);
      fieldsets := resolvedFieldsets;
    }

    /**
     * `validate(formData)`: validates every field with `formData[key]`,
     * storing each field's errors, and returns null (`None`) when every list
     * is empty, otherwise the mapping of exactly the fields with errors.
     */
    method Validate(formData: Data) returns (result: Option<seq<(string, seq<string>)>>)
      requires Valid()
      modifies Objects()`errors
      ensures AllValidated(ConfigsOf(fields), Keys(fields), ErrorListsOf(fields), formData)
      ensures result == FormErrors(Keys(fields), ErrorListsOf(fields))
    {
      result := ValidateFields(fields, formData);
    }
  }

  /** `setData(getData())` writes every value back unchanged, so a second `getData()` returns the same mapping. */
  method SetDataGetDataRoundTrip(form: Form) returns (before: Data, after: Data)
    requires form.Valid()
    modifies form.Objects()`value
    ensures before == after
    ensures forall i :: 0 <= i < |form.fields| ==> form.fields[i].1.value == old(form.fields[i].1.value)
  {
    before := form.GetData();
    form.SetData(before);
    after := form.GetData();
  }

  /**
   * Rendering a form twice, with no `validate` or `setData` in between, gives
   * the same HTML both times: the first render already filled in every
   * default, so the second finds nothing left to fill.
   */
  method RenderTwice(form: Form, m: Mustache, extra: Vars) returns (first: string, second: string)
    requires form.Valid()
    modifies form`fieldsets, form.Objects()`config
    ensures first == second
  {
    ghost var keys := Keys(form.fields);
    first := form.Render(m, extra);
    ghost var configs := ConfigsOf(form.fields);
    ghost var errs := ErrorListsOf(form.fields);
    ghost var rendered := RenderedOf(form.fields, m);
    ghost var fieldsets := form.fieldsets;
    ResolveAllIdempotent(keys, old(ConfigsOf(form.fields)), form.config);
    ResolveFieldsetsIdempotent(old(form.fieldsets));
    second := form.Render(m, extra);
    assert ConfigsOf(form.fields) == configs;
    assert ErrorListsOf(form.fields) == errs;
    assert RenderedOf(form.fields, m) == rendered;
    assert form.fieldsets == fieldsets;
  }
}
