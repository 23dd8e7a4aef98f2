# zn-js-form in Dafny

zn-js-form turns form configuration into HTML and checks submitted values.
It has three parts:

- a `Field` holds its configuration, renders itself and validates one submitted value;
- a `Form` holds an ordered Map of fields and one of fieldsets; it reads and writes
  field values, renders the whole form and validates a submission;
- two string utilities: `attributesToString`, the HTML attribute serializer, and
  `stripWhitespace`, the whitespace normaliser.

Mustache does all template rendering. This model treats Mustache as a parameter:
every rendering operation takes the renderer as a total function
`m(template, variables)`. The model states which template and which variables each
render passes to it. It proves the logic around those calls:

- configuration merging;
- choice records for select, radio and checkbox inputs;
- merging the `disabled`/`readonly`/`required` flags with `inputAttributes`;
- filling in the defaults a field left empty;
- assembling the form body from fields or fieldsets;
- the required check and custom validation;
- collecting per-field errors into the form's result.

Modules, one per source file plus two shared ones:

- `Values` (values.dfy): JavaScript values, `String(v)`, `Array.prototype.join`, and
  ordered string-keyed entries for JavaScript objects and Maps (`get`, `set`,
  `Object.assign`).
- `Utils` (utils.dfy): `attributesToString` as a loop method proved against
  `AttrString`, and `stripWhitespace` as a chain of pure steps.
- `Templates` (templates.dfy): template variables, the renderer type, and how the
  caller's `templateVariables` override computed variables.
- `Fields` (fields.dfy): the field configuration, its defaults and merge, the option
  loop, input attributes, the three renders of a field, validation, and the class
  `Field`. `Field` has the mutable `config`, `errors` and `value`.
- `Forms` (forms.dfy): the form configuration, default resolution, body assembly,
  error collection, and the class `Form`. `Form` holds the `fields` and `fieldsets`
  Maps as sequences of entries. The loops of `render` and `validate` are methods over
  the field entries; the methods of `Form` call them.

Where the code, its tests and its comments disagree, the model follows the code:

- `Field.validate` does not consult `disabled` or `readonly` (src/Field.js:199). A
  required, disabled, readonly field with an empty value still gets the required
  text (`DisabledReadonlyStillRequired`); test/validate.test.js:21-32 expects no error.
- `Field.validate` does not store the submitted value. It only stores the error list.
- The input template is never given a `value` variable (src/Field.js:134-149).
  Without options, `config.value` does not reach the HTML at all
  (`FieldHtmlIgnoresValueWithoutOptions`).
- `render` reads `config.value`. `getData`, `setData` and `clearData` read and write a
  separate instance property `value` (src/Form.js:141, 158, 252). The model keeps the
  two apart, so `setData` does not change what `render` shows.
- The serializer's documentation gives `{ a:1, b:'', c:null }` as `a=1 b`. The code
  quotes every value and produces `a="1" b` (`AttrStringExample`).
- A field's `requiredText` defaults to ''. It takes the form's `requiredText` only when
  the form renders (src/Form.js:197-198). Validation before any render reports ''.
- `Form.validate()` without an argument calls `this.getFormData`, which does not exist
  (src/Form.js:289). In the model `formData` is a required argument.
- `Form.render` serializes its `attributes` with its own copy of the serializer loop
  (src/Form.js:175-180). That loop is the same as `attributesToString`, so the model
  uses `AttributesToString` for both.

## Model

| member | source | states |
|---|---|---|
| Values.Join | src/utils.js:32 | no parts give '', one part is returned as it is |
| Values.JoinAppend | src/Form.js:207 | joining two non-empty lists puts exactly one separator between them |
| Values.DataGet | src/Form.js:295 | `formData[key]`: a key present in the data reads as its value, a missing key as undefined |
| Values.NatToStringSpec | src/utils.js:28 | the decimal digits of a natural number read back as that number, and begin with '0' only for 0, whose text is exactly '0' |
| Values.IntToStringSpec | src/utils.js:28 | `String(n)` of an integer is digits with an optional leading minus sign, reads back as `n`, begins with '0' only for 0, whose text is exactly '0', and has a non-zero digit right after the sign of a negative number |
| Values.JsStringExamples | src/utils.js:28 | `String(1)` is `1` and `String(-40)` is `-40`, as a template literal writes them |
| Values.Get | src/Form.js:251-252 | a key is absent exactly when no entry has it |
| Values.PutSpec | src/Form.js:298 | setting a key: it reads back the new value, other keys read as before, keys stay distinct, an existing key keeps its position and a new one goes last |
| Values.AssignSpec | src/Field.js:137-144 | after `Object.assign(base, over)` a key of `over` has its value there, every other key keeps its value from `base` |
| Values.AssignKeepsBaseOrder | src/Field.js:137-144 | `Object.assign` keeps the keys of `base` first, in their order |
| Values.AssignAppendsNewKeys | src/Field.js:137-144 | the keys `Object.assign` adds that `base` lacks come after the keys of `base`, in the order of `over` |
| Templates.Overlay | src/Field.js:162-176 | the caller's variables override computed ones with the same name; every other computed variable stays |
| Utils.Entry | src/utils.js:28 | an entry's text starts with its key; it is the bare key exactly when the value is ''; otherwise it is `key="value"` with the string copied unescaped |
| Utils.AttributesToString | src/utils.js:24-33 | the loop returns the non-null entries' texts, in order, joined by single spaces |
| Utils.AttrEntriesAppend | src/utils.js:26-30 | the entries of a concatenation are emitted in input order |
| Utils.AttrEntriesSingle | src/utils.js:27-28 | a null value contributes nothing, '' the bare key, any other value `key="value"` |
| Utils.AttrStringCons | src/utils.js:26-32 | a null entry in front changes nothing; any other entry adds its text, followed by one space when more entries follow |
| Utils.AttrEntriesFromNonNull | src/utils.js:26-29 | every emitted text comes from an input entry whose value is not null |
| Utils.NullEntryIgnored | src/utils.js:27 | removing an entry whose value is null leaves the output unchanged |
| Utils.AttrStringExample | src/utils.js:18-33 | `{ a:1, b:'', c:null }` gives `a="1" b` |
| Utils.TrimSpec | src/utils.js:44 | `trim` leaves no whitespace at either end, keeps every non-whitespace character in order, and leaves a trimmed string unchanged |
| Utils.TrimSlice | src/utils.js:44 | `trim` removes exactly a whitespace prefix and a whitespace suffix: the result is one contiguous slice of the input, with its inner whitespace |
| Utils.RemoveLineBreaksAppend | src/utils.js:44 | removing line breaks distributes over concatenation |
| Utils.RemoveLineBreaksChar | src/utils.js:44 | a single character is dropped exactly when it is CR or LF; spaces and tabs are kept |
| Utils.RemoveLineBreaksContent | src/utils.js:44 | removing line breaks leaves no CR or LF and keeps every non-whitespace character, in order |
| Utils.RemoveLineBreaksEnds | src/utils.js:44 | a non-whitespace first or last character stays in place; a string without line breaks is unchanged |
| Utils.CollapseRunsShape | src/utils.js:44 | after collapsing runs no two adjacent characters are whitespace, and non-whitespace end characters stay in place |
| Utils.CollapseRunsContent | src/utils.js:44 | collapsing runs keeps every non-whitespace character, in order |
| Utils.CollapseRunsAppend | src/utils.js:44 | no run crosses a non-whitespace character: the text on either side of one collapses on its own |
| Utils.CollapseRunsLeadingRun | src/utils.js:44 | a leading whitespace run becomes one space when it is two or more characters long, and is kept as it is when it is one |
| Utils.CollapseRunsSplit | src/utils.js:44 | a maximal whitespace run between non-whitespace text becomes one space when it is two or more characters long and is kept as it is otherwise |
| Utils.CollapseRunsNoLineBreaks | src/utils.js:44 | collapsing runs adds no line break |
| Utils.CollapseRunsFixpoint | src/utils.js:44 | a string without double whitespace is left unchanged |
| Utils.RemoveSpacesNoSpaces | src/utils.js:46 | removing all whitespace leaves none, and leaves a string without whitespace unchanged |
| Utils.StripWhitespaceNormalises | src/utils.js:43-47 | the output has no CR or LF, no whitespace at either end and no run of two whitespace characters; with `removeAllSpaces` it has no whitespace at all; null or undefined input gives '' |
| Utils.StripWhitespaceKeepsContent | src/utils.js:43-47 | only whitespace changes: the non-whitespace characters are kept, in order |
| Utils.StripWhitespaceSeparates | src/utils.js:43-47 | without `removeAllSpaces`, whitespace between two non-whitespace characters becomes one space when at least two of its characters are not line breaks, stays as it is when one is, and vanishes when all are line breaks; the text on each side is stripped on its own |
| Utils.StripWhitespaceRunExample | src/utils.js:43-47 | `stripWhitespace('a  b')` is 'a b' |
| Utils.StripWhitespaceLineBreakExample | src/utils.js:43-47 | `stripWhitespace('a \n b')` is 'a b' |
| Utils.StripWhitespaceJoinExample | src/utils.js:43-47 | `stripWhitespace('a\nb')` is 'ab': line breaks go before runs are collapsed |
| Utils.StripWhitespaceFixpoint | src/utils.js:43-47 | an already-normalised string is returned unchanged |
| Utils.StripWhitespaceIdempotent | src/utils.js:43-47 | applying `stripWhitespace` twice equals applying it once, for either flag value |
| Fields.MergeFieldConfigSpec | src/Field.js:19 | merging: no supplied key gives the base back; every key supplied gives the supplied configuration; a supplied `required` overrides and an absent one keeps the base's; merging twice equals merging once |
| Fields.Field.constructor | src/Field.js:16-20 | the configuration is the defaults with every supplied key overriding its default; no errors yet and the value is unset |
| Fields.Choices | src/Field.js:119-129 | one choice record per option, in option order, carrying the option's key and text; a record is selected exactly when the value is a string equal to its key |
| Fields.HasSelectedOptionSpec | src/Field.js:118-122 | some option is selected exactly when the value is a string equal to some option key; a number, list, null or undefined selects nothing |
| Fields.AnySelectedAppend | src/Field.js:120-122 | after one more option, some record is selected exactly when one was before or the new one is |
| Fields.BuildChoices | src/Field.js:117-129 | the option loop returns exactly the choice records, and `hasSelectedOption` is true exactly when some record is selected |
| Fields.InputAttrsFlagsOnly | src/Field.js:137-144 | with no `inputAttributes`, the input attribute string is exactly the set flags among disabled, readonly and required, in that order, space-separated |
| Fields.InputAttrsReadonlyRequired | test/render.test.js:26-41 | a readonly, required, not disabled field without `inputAttributes` gets `readonly required` |
| Fields.InputAttrsOverride | src/Field.js:137-144 | a key set in `inputAttributes` takes that value; a flag it does not set keeps the flag's value; a null value drops the attribute from the output |
| Fields.FieldHtmlValueOnlySelects | src/Field.js:119-150 | `config.value` reaches the HTML only through the choice records: two values that select the same options render the same field |
| Fields.FieldHtmlIgnoresValueWithoutOptions | src/Field.js:132-150 | the input template is given no `value`, so without options `config.value` does not change the rendered field at all |
| Fields.FieldHtmlIgnoresValidation | src/Field.js:113-178 | the rendered field does not depend on `requiredText` or `validateFunction`, only on the stored errors |
| Fields.FieldHtmlExtraReaches | src/Field.js:153-177 | the field template receives every caller variable with the caller's value; an `inputHtml` or `errorsHtml` the caller does not override is the input template rendered on the field's variables, or the errors template rendered on the stored errors |
| Fields.Field.Render | src/Field.js:113-178 | the rendered HTML is `FieldHtml` of the current configuration and stored errors; nothing in the field changes |
| Fields.ValidationErrorsSpec | src/Field.js:199-206 | the required text comes first exactly when the field is required and the value is '', undefined or null; the validator's messages follow, in order; the list is empty exactly when both parts are; an empty list or 0 is not missing |
| Fields.RequiredFieldExample | test/validate.test.js:8-19 | a required field with an empty value yields exactly its required text; with a non-empty value it yields nothing |
| Fields.DisabledReadonlyStillRequired | src/Field.js:199-201 | a required field that is also disabled and readonly still yields its required text for an empty value |
| Fields.Field.Validate | src/Field.js:196-212 | returns the error list of the configuration for the submitted value, stores exactly that list in `errors`, and changes nothing else |
| Forms.MergeFormConfigSpec | src/Form.js:16-18 | merging: no supplied key gives the base back; every key supplied gives the supplied configuration; a supplied `requiredText` overrides and an absent one keeps the base's; merging twice equals merging once |
| Forms.Form.constructor | src/Form.js:15-18 | the configuration is the defaults with every supplied key overriding its default; the form has no fields or fieldsets |
| Forms.ResolveDefaultsSpec | src/Form.js:188-198 | a non-empty name, errors template, input template or required text is kept; an empty one takes the field's key, the form's errors template, the form's template for the input type (else for 'input') and the form's required text; nothing else changes; resolving twice equals resolving once |
| Forms.ResolveFieldsets | src/Form.js:209-212 | each fieldset's empty name becomes its key; the keys, their order and their distinctness are kept |
| Forms.ResolveAllIdempotent | src/Form.js:185-199 | resolving every field's defaults a second time changes nothing |
| Forms.ResolveFieldsetsIdempotent | src/Form.js:209-212 | resolving the fieldsets' names a second time changes nothing |
| Forms.FieldsHtmlAppend | src/Form.js:215-217 | the fields HTML of a concatenated name list is the two parts' HTML concatenated |
| Forms.FieldsHtmlSpec | src/Form.js:215-217 | each listed name adds its field's HTML and a newline; a name with no field adds only the newline |
| Forms.ListedFieldsHtml | src/Form.js:214-217 | the inner loop returns the HTML of each listed name, each followed by a newline |
| Forms.FieldsetsHtmlReplace | src/Form.js:209-220 | the fieldsets' HTML does not depend on the HTML of a field that no fieldset lists |
| Forms.FieldsetExclusion | src/Form.js:206-221 | once a fieldset exists, a field that no fieldset lists contributes nothing to the body |
| Forms.BodyWithoutFieldsets | src/Form.js:206-207 | without fieldsets, one more field adds a newline and its HTML at the end of the body |
| Forms.ResolveAndRenderFields | src/Form.js:184-201 | every field's configuration becomes its resolved configuration, in order; the result holds each key with that field's rendered HTML, in field order |
| Forms.RenderBody | src/Form.js:205-221 | without fieldsets, the body is the fields' HTML joined by newlines; otherwise it is the fieldsets rendered in order, each with its listed fields' HTML; the fieldsets are returned with their names resolved |
| Forms.Form.Render | src/Form.js:172-237 | writes the resolved defaults into every field and the resolved name into every fieldset, and returns the form template rendered with the form's variables, the assembled body and the caller's variables laid over them |
| Forms.RenderTwice | src/Form.js:172-237 | rendering a form twice with no `validate` or `setData` in between gives the same HTML both times |
| Forms.CollectErrorsSnoc | src/Form.js:294-299 | a field with a non-empty list puts its key and list into the errors object, a field without errors leaves it as it was, and the error flag becomes true exactly when a list is non-empty |
| Forms.CollectErrorsSpec | src/Form.js:292-300 | with distinct keys, the errors object holds exactly the keys whose lists are non-empty, each with its own list |
| Forms.FormErrorsSpec | src/Form.js:292-302 | the result is null exactly when every list is empty; otherwise it maps exactly the fields with errors to their lists |
| Forms.ValidateFields | src/Form.js:292-302 | every field is validated in order with `formData[key]` and stores its list; the result is what `FormErrors` gives for the stored lists |
| Forms.Form.Validate | src/Form.js:287-303 | every field's stored errors are its validation result for the submission; the result is null when all lists are empty, otherwise exactly the fields with errors |
| Forms.Form.GetData | src/Form.js:153-162 | the mapping has exactly the field keys, each mapped to that field's value |
| Forms.Form.SetData | src/Form.js:248-255 | a field named in the input takes its value; every other field keeps its value, unknown keys are ignored and the set of fields is unchanged |
| Forms.Form.ClearData | src/Form.js:139-143 | every field's value becomes '' and nothing else changes |
| Forms.SetDataGetDataRoundTrip | src/Form.js:248-255 | `setData(getData())` leaves every value unchanged, so `getData()` returns the same mapping before and after |
| Forms.Form.SetField | src/Form.js:115-131 | `fields.set(key, field)`: an existing key keeps its position, a new key goes last, and keys stay unique |
| Forms.Form.SetFieldset | src/Form.js:94-113 | `fieldsets.set(key, fieldset)`: an existing key keeps its position, a new key goes last, and keys stay unique |

## Left out

- Mustache itself and the text of the default templates' output. The renderer is a
  parameter, and the model states which templates and variables it receives.
  The default template strings are kept as constants.
- src/Fieldset.js beyond what the form uses. A fieldset is a value holding its
  configuration, already merged with its defaults. The Fieldset constructor's merge
  (src/Fieldset.js:16-20) is not modelled. `Fieldset.render` appears only as the
  template call `FieldsetHtml`.
- Identity of fieldset objects. `render` writes the resolved name into the
  `fieldsets` entries. A Fieldset object that a caller also holds elsewhere is not
  updated through that alias. And if one Fieldset object is set under two keys, the
  source's first iteration writes the first key into the shared `config.name`
  (src/Form.js:212), so both entries render with that name. The model instead
  resolves each entry to its own key.
- Sharing through the prototype. `Form.prototype.fields`, `Form.prototype.fieldsets`
  and `Field.prototype.errors` are shared by every instance until an instance assigns
  its own. The model gives each instance its own state.
- Shared nested defaults. The constructors merge with a shallow copy
  (src/Field.js:19, src/Form.js:17). So every form that does not supply its own
  `inputTemplates`, `attributes` or `classes` holds the same default object. Every
  field likewise shares the default attribute objects and class arrays. Writing into
  one of them, as test/html.test.js:155 does to `inputTemplates`, changes it for all of
  them. The model's configurations are values, so such a write is not captured.
- The enumeration order of integer-like object keys. `options` and `htmlByField`
  are modelled as explicit ordered lists, in insertion order. The same holds for
  attribute objects: `Object.entries` (src/utils.js:26, src/Form.js:176) and the
  `Object.assign` at src/Field.js:137-144 list integer-like attribute names first in
  the source. So `inputAttributes: {10: 'a'}` gives `10="a" disabled …` there, while
  the model keeps insertion order and gives `disabled … 10="a"`.
- The key order of result objects. `getData` returns an object (src/Form.js:155-161),
  and the model returns an unordered map. The `validate` errors object
  (src/Form.js:292-299) lists integer-like keys first in the source; the model keeps
  insertion order for every key.
- Keys that name `Object.prototype` members, such as `constructor`, `toString` or
  `__proto__`. A plain-object lookup in the source also finds these inherited members.
  The model reads a missing key as undefined (`DataGet`, `formData[key]` at
  src/Form.js:295) or as '' (`HtmlOf` at src/Form.js:216, `InputTemplateFor` at
  src/Form.js:194). The source would instead find a function there. For example, a
  required field under the key `constructor` validated against `{}` gets no error in
  the source but the required text in the model. Likewise, `__proto__` is not stored
  as an own key at src/Form.js:158 and 298.
- Number width and notation. `Num` holds an unbounded integer, and `IntToString` writes
  every digit. JavaScript numbers are doubles: integers above 2^53 are not exact, and
  `String(n)` switches to exponent notation from 1e21 on.
- Numbers other than integers, and values of the wrong type in a configuration
  (a non-array `classes`, a non-object `options`). The configuration types rule them
  out. A `validateFunction` that is not a function is `None`; a null `options` is
  the empty list.
- `Form.validate()` called without an argument. It throws in the source (missing
  `getFormData`), so the model has no such path.
- Forms.ResolveDefaultsSpec: when neither `inputTemplates[inputType]` nor
  `inputTemplates['input']` exists, the source stores `undefined`. The model stores '',
  which renders the same through `inputTemplate || ''`.
- Forms.Form.SetField: requires that the Field object is not already held under
  another key. The source allows one object under two keys. The model keeps field
  objects distinct so that each key's configuration and errors can be updated
  separately.
- Forms.Form.SetData: the source visits the submitted keys in `Object.keys` order.
  The model visits them in any order. Field keys are distinct, so every order gives
  the same final state.
- The build script (gulpfile.js), the re-exports in src/index.js, and the browser
  submit handler used by the tests.
