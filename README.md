# FireCMS form fields and autosizing textarea, modelled in Dafny

This project models two small pieces of logic from the FireCMS admin panel.

**The form-field factory** (`src/form/form_factory.tsx`). A schema `Property` describes how one field of an entity is edited. `createFormField` picks the input widget for it through a fixed priority order:

1. disabled;
2. custom component;
3. data type, and for arrays the element type, with enum values, storage metadata and markdown deciding within a type.

`buildFieldInternal` wraps the widget in Formik's `Field` or `FastField`, and works out whether the field's error is shown. A widget's `setValue` first marks the field touched and then stores the value. `createCustomIdField` builds the entity-id input: whether it is disabled, its label, the value it shows, and whether it is a select or a text input.

**The autosizing textarea** (`src/components/TextAreaAutoSize.tsx`). On every layout, the textarea measures a hidden shadow copy of itself. It clamps the content height between `rowsMin` and `rowsMax` rows, never below one row, and adds padding and border under `border-box` sizing. It then offers the result as `{overflow, outerHeightStyle}` to a state updater. The updater accepts only significant changes, and only while a `renders` counter is below 20. The counter is reset on window resize, on a change of the `value` prop and on every change event. This is what keeps a layout that keeps moving from re-rendering forever.

Files:

- `wrappers.dfy`: `Option`.
- `js_values.dfy`: JavaScript values and their truthiness.
- `js_parse_int.dfy`: JavaScript's `parseInt(s, 10)`, as section 19.2.5 of ECMA-262 defines it.
- `form_factory.dfy`: module `FormFactory`.
- `textarea_autosize.dfy`: module `TextAreaAutoSize`, with the component as class `TextareaAutosize`.

Inputs from outside are parameters:

- the DOM's computed style is a `map<string, string>`;
- the shadow element's `scrollHeight` is a function from the text put into it to an integer;
- the page as laid out for a given state is a function from the state to those measurements.

## Model

| member | source | states |
|---|---|---|
| `FormFactory.SelectWidget` | src/form/form_factory.tsx:53-90 | A disabled property always gets `DisabledField`. Otherwise `config.field` always wins. The result is "not supported" exactly for an unknown data type that is neither disabled nor customised. Arrays get `ArrayEnumSelect` iff the element is a string or number with enum values, which beats storage metadata. Otherwise a string element with storage metadata gets `StorageUploadField`, and every other array gets `ArrayDefaultField`. For strings the order is storage > markdown > enum (`Select`) > `TextField`; for numbers it is enum (`Select`) > `TextField`. Map, reference, timestamp and boolean each get their own widget. |
| `FormFactory.DataTypeName` | src/form/form_factory.tsx:106 | For a well-formed data type, the name printed in the "not supported" message is one of the seven known type names iff the type is not an unknown one. |
| `FormFactory.ChooseWrapper` | src/form/form_factory.tsx:126-128 | The wrapper is `Field` iff the property has `config.field`, and `FastField` otherwise. |
| `FormFactory.CreateFormField` | src/form/form_factory.tsx:92-107 | A field is built iff a widget was selected. It carries that widget under key `form_field_<name>`, and its wrapper is `Field` iff `config.field` is set, even for a disabled property. Otherwise the result is the "Currently the field <dataType> is not supported" message. |
| `JsValues.Truthy` | src/form/form_factory.tsx:139 | A value is truthy iff it is not one of `undefined`, `null`, `false`, `0` and `""`. |
| `JsValues.FilterTruthy` | src/form/form_factory.tsx:139 | `error.filter(e => !!e)` keeps only truthy elements and never grows the array. |
| `JsValues.FilterTruthyNonEmpty` | src/form/form_factory.tsx:139 | The filtered array is non-empty iff some element is truthy. |
| `FormFactory.ShowError` | src/form/form_factory.tsx:139 | The error is shown iff `error` is truthy, `touched` is truthy, and `error` is not an array or has a truthy element. |
| `FormFactory.RenderField` | src/form/form_factory.tsx:137-140 | An untouched field, or a field with no error entry, never shows an error. The "updated in the database" note shows iff the underlying value changed and the form is not submitting. |
| `FormFactory.FormState.SetFieldTouched` | src/form/form_factory.tsx:146 | Sets the field's touched flag to true and appends that update to the log. Values and errors are unchanged. |
| `FormFactory.FormState.SetFieldValue` | src/form/form_factory.tsx:147 | Stores the value under the field name and appends that update to the log. Touched flags and errors are unchanged. |
| `FormFactory.FormState.SetValue` | src/form/form_factory.tsx:145-148 | Issues exactly two updates, touched and then value, both under the same name. Afterwards the field shows its error iff the error is truthy and is not an array without truthy elements. |
| `FormFactory.CustomIdTruthy` | src/form/form_factory.tsx:188 | `customId` is truthy iff it is `true` or an enum object. |
| `FormFactory.CustomIdIsObject` | src/form/form_factory.tsx:190 | `typeof customId === "object"` holds for a truthy value iff it holds enum values, and for a falsy value iff it is `null`. |
| `FormFactory.CustomIdField` | src/form/form_factory.tsx:188-267 | Disabled iff the status is existing or `customId` is falsy. The label is "Id is set automatically" iff the status is new, or copy and disabled, and "Id" otherwise. A value is shown iff the entity exists and the status is existing, and a shown value is never editable. A text input is rendered iff `customId` is not an object, and a select iff it holds enum values. A `null` `customId` renders neither. |
| `JsParseInt.ParseInt10` | src/components/TextAreaAutoSize.tsx:10 | `parseInt(s, 10)` is NaN exactly when, after leading white space and one sign, no digit follows. |
| `JsParseInt.ParseDecimal` | src/components/TextAreaAutoSize.tsx:10 | A decimal numeral followed by a unit that does not start with a digit parses back to its number. |
| `JsParseInt.ParseNegativeDecimal` | src/components/TextAreaAutoSize.tsx:10 | A minus sign in front of such a numeral gives the negated number. |
| `TextAreaAutoSize.GetStyleValue` | src/components/TextAreaAutoSize.tsx:9-11 | The value is 0 when `parseInt` fails, including for a style property that is missing. |
| `TextAreaAutoSize.GetStyleValuePixels` | src/components/TextAreaAutoSize.tsx:9-11 | A style value `<n>px` reads as `n` pixels. |
| `TextAreaAutoSize.GetStyleValueNegativePixels` | src/components/TextAreaAutoSize.tsx:9-11 | A style value `-<n>px` reads as `-n`. |
| `JsValues.LooselyNull` | src/components/TextAreaAutoSize.tsx:37 | `value != null` is false exactly for `undefined` and `null`, and a loosely-null value is never truthy. |
| `TextAreaAutoSize.Props.RowsMin` | src/components/TextAreaAutoSize.tsx:33-35 | `rowsMin` defaults to 1 when the prop is not given, and is the prop's value otherwise. |
| `TextAreaAutoSize.OuterHeight` | src/components/TextAreaAutoSize.tsx:90-99 | The height is never below one row. With no limits it is `max(inner, singleRow)`. Content within the limits keeps its own height. `rowsMin` raises the height to `rowsMin` rows unless `rowsMax` asks for less. `rowsMax` caps the height, subject only to the one-row floor, and wins outright on a conflict. |
| `TextAreaAutoSize.ComputeOuterHeight` | src/components/TextAreaAutoSize.tsx:91-99 | The source's step-by-step max/min reassignments compute exactly `OuterHeight`. |
| `TextAreaAutoSize.ShadowText` | src/components/TextAreaAutoSize.tsx:74 | The measured text is the input's value if non-empty, else the placeholder if non-empty, else "x". It is never empty. |
| `TextAreaAutoSize.Measure` | src/components/TextAreaAutoSize.tsx:76-103 | `outerHeightStyle` is the outer height plus padding and border under `border-box`, and the outer height otherwise. `overflow` holds iff the outer height is within one pixel of the content height. |
| `TextAreaAutoSize.MeasureShadow` | src/components/TextAreaAutoSize.tsx:76-103 | syncHeight's measuring steps, taken as the source takes them, compute exactly `Measure`. |
| `TextAreaAutoSize.ShouldAccept` | src/components/TextAreaAutoSize.tsx:108-112 | An accepted measurement needs budget left (`renders < 20`) and always changes the state. |
| `TextAreaAutoSize.Step` | src/components/TextAreaAutoSize.tsx:104-133 | The updater returns the previous state unchanged iff the guard rejects the measurement, and otherwise the new `{overflow, outerHeightStyle}`. The counter goes up by one exactly on an accepted update and never passes 20. |
| `TextAreaAutoSize.ShouldAcceptProperties` | src/components/TextAreaAutoSize.tsx:105-133 | An update is accepted only while `renders < 20`. The first measurement is always accepted. A changed overflow flag with budget left is accepted. The state just installed never accepts the same measurement again. A move of at most one pixel with an unchanged overflow flag is rejected. |
| `TextAreaAutoSize.AcceptedWithinBudget` | src/components/TextAreaAutoSize.tsx:108-114 | Over any sequence of measurements with no reset between them, at most `20 - renders` updates are accepted. |
| `TextAreaAutoSize.TextareaAutosize.constructor` | src/components/TextAreaAutoSize.tsx:37-42 | At mount, `isControlled` is `value != null`, `renders` is 0 and the state is the empty `{}`. |
| `TextAreaAutoSize.TextareaAutosize.SyncHeight` | src/components/TextAreaAutoSize.tsx:68-134 | On an accepted measurement, `renders` goes up by one and the state becomes the new `{overflow, outerHeightStyle}`. Otherwise both are left unchanged. `renders` stays at most 20. |
| `TextAreaAutoSize.TextareaAutosize.Settle` | src/components/TextAreaAutoSize.tsx:105-112 | Re-syncing after every accepted update ends after at most `21 - renders` syncs. At the end, the state is stable for the page as laid out for it, or the budget is spent. |
| `TextAreaAutoSize.TextareaAutosize.OnResize` | src/components/TextAreaAutoSize.tsx:137-140 | Resets `renders` to 0 and then syncs. |
| `TextAreaAutoSize.TextareaAutosize.OnValueChange` | src/components/TextAreaAutoSize.tsx:153-155 | Resets `renders` to 0 and keeps the state. |
| `TextAreaAutoSize.TextareaAutosize.HandleChange` | src/components/TextAreaAutoSize.tsx:157-167 | Resets `renders`. Only an uncontrolled textarea re-syncs its height, and that happens before the event is forwarded to `onChange`, if one is given. |
| `TextAreaAutoSize.CheckDirty` | src/components/TextAreaAutoSize.tsx:48-59 | `onFilled` is called iff the value is truthy and the callback exists. `onEmpty` is called iff the value is falsy and that callback exists. |
| `TextAreaAutoSize.CapturedValue` | src/components/TextAreaAutoSize.tsx:48-59 | The memoised callback sees the value of the last render that rebuilt it: the first render, or one where `onFilled` or `onEmpty` changed, with the callbacks unchanged from then on. |
| `TextAreaAutoSize.RebuildPointUnique` | src/components/TextAreaAutoSize.tsx:48-59 | There is only one such render, so the captured value is determined by the history. |
| `TextAreaAutoSize.DirtyEffectAsWritten` | src/components/TextAreaAutoSize.tsx:48-65 | The effect calls checkDirty iff the textarea is controlled. It then calls the current `onFilled` iff the captured value is truthy and that callback exists, and the current `onEmpty` iff the captured value is falsy and that callback exists. |
| `TextAreaAutoSize.DirtyEffect` | src/components/TextAreaAutoSize.tsx:61-65 | The corrected effect reports filled or empty from the current value. |
| `TextAreaAutoSize.DirtyEffectsAgreeOnNewCallbacks` | src/components/TextAreaAutoSize.tsx:48-65 | The two effects agree on a render where the form control's callbacks changed. |
| `TextAreaAutoSize.StaleDirtyCheck` | src/components/TextAreaAutoSize.tsx:48-65 | Counterexample: a controlled textarea goes from "" to "abc" with the same callbacks. As written it reports empty; as intended it reports filled. |

## Left out

- `src/CMSRouterSwitch.tsx`: only wiring into react-router. Its path helpers come from a file that is not part of this model.
- Rendering is not modelled: JSX, Material-UI components and styles, the shadow element's style object, the Select's menu items, the copy-to-clipboard hook, the snackbar and the database-console link. The id field only records whether its text input has the copy button.
- `createCustomIdField`'s `error` flag, its `onChange` forwarding, the fixed props (`name: "id"`, `type`, `variant`) and the "You need to specify an ID" message are not modelled: they are constants or plain pass-through.
- Formik internals are left out:
  - `getIn` is a lookup by flat field name, so nested paths are not modelled;
  - validation after `setFieldTouched` and `setFieldValue` is not modelled: the errors after `setValue` are the errors from before the update;
  - how `FastField` differs from `Field` when re-rendering is only named, not modelled;
  - the props a widget receives, apart from the error display, are not modelled.
- DOM work is not modelled: `getComputedStyle` (a map), `scrollHeight` (a function parameter), copying the width to the shadow element and writing its value.
- Window resize listening, `debounce`, and when React runs its effects are not modelled. `Settle` stands for "every accepted update re-renders, and the layout effect syncs again". The model does not capture that on a `value` change the layout effect's sync runs before the effect that resets `renders`.
- The `console.log` call and the "too many re-renders" `console.error` at the limit are not modelled.
- JavaScript numbers are integers here: NaN, fractions and precision loss above 2^53 are not modelled. `rowsMin` and `rowsMax` are natural row counts, and `rowsMax == 0` stands for an unset limit (both are falsy in `if (rowsMax)`). `Number(rowsMin)` is the identity.
- `JsValue` objects carry no fields. Only their truthiness is used.
- `ShowError`: `showError` is modelled only by its truthiness. In JavaScript, `error && touched && ...` yields the falsy operand itself, not `false`, when the error is not shown.

## Findings

| source | as written | input that shows it | evidently intended | confidence | as-written member | corrected member |
|---|---|---|---|---|---|---|
| src/components/TextAreaAutoSize.tsx:48-65 | `checkDirty` is memoised on `[onFilled, onEmpty]` only. It tests `value` from its closure and ignores the `obj` it is called with, so it sees the value of the render that created it. | A controlled textarea inside a form control renders with value "" and then "abc", with the same callbacks. The effect calls `onEmpty`. | Test the value passed in. The effect then calls `onFilled` for "abc". | medium, not executed | `TextAreaAutoSize.DirtyEffectAsWritten` (counterexample `TextAreaAutoSize.StaleDirtyCheck`) | `TextAreaAutoSize.DirtyEffect` |
