# django-bootstrap-forms: label helpers in Dafny

This project models the label-rendering core of django-bootstrap-forms, an add-on for Django's form
rendering. For one bound form field, the core computes three things:

- the label's CSS classes: a union of the configured defaults, an optional widget hook, an optional
  form hook and the caller's extra classes. Classes for checkbox/radio widgets, horizontal forms,
  sizes and screen-reader-only labels are then added.
- the label's HTML attributes: four layers merged so that the highest layer wins (widget hook < form
  hook < settings < call site). `for` is then always set to the field's `id_for_label`.
- the extra template context: the same four layers.

`label` puts these together into the context handed to the widget's renderer. The `label` template
tag resolves its `horizontal`, `size` and `sronly` arguments against the ambient template context,
then calls `label` with the keyword attributes as `extra_context['attrs']`.

Files:

- `wrappers.dfy` (`Wrappers`): `Option` and `Result`.
- `strings.dfy` (`Strings`): the Python string operations the code uses. These are `str.split()`
  with no argument (`Split`), `' '.join` (`Join`), Python's code-point order on `str` (`Less`) and
  `sorted()` of a set of strings (`SortedSet`).
- `layers.dfy` (`Layers`): successive `dict.update` calls. `Highest(layers, k)` is the reference
  definition: the value of `k` in the highest layer that defines it.
- `utils.dfy` (`Utils`): `update_css_classes`, `get_label_classes`, `get_label_attrs`,
  `get_label_context` and `label`. The last four are methods with local state, like the Python
  code, which grows a set with `|=` and a dict with `.update`. `label` changes the caller's
  `extra_context` in place, so that argument is an object (`Dict`) and the method carries a
  `modifies` clause.
- `template_tags.dfy` (`TemplateTags`): `label_tag`.

Inputs that Python reads from the environment are parameters here:

- `settings.BOOTSTRAP_FORMS` is a `Settings` record. A key it does not set is empty.
- Each widget or form hook (`get_label_classes`, `get_label_attrs`, `get_label_context`) is an
  `Option`. `None` means the object does not define the hook.
- The widget's kind (`CheckboxInput`, `RadioSelect` or a truthy `is_checkbox`) is one `bool`,
  `isCheckbox`.
- `label_template_name` is an `Option<string>`.
- The renderer call `widget._render(template_name, context)` is replaced by returning
  `Rendering(templateName, context)`.

Template-context values are `Value`s: a string, an attribute dict, or any other object identified
only by a token.

Facts about the code that the model follows:

- The settings layer is applied after the widget and form hooks (`utils.py:72-73`, `utils.py:87`).
  So the attribute and context precedence is widget < form < settings < call site.
- `label_tag` reads only the context keys `form_horizontal_label`, `form_size` and `form_sronly`.
  It does not read a `label_attrs` context key.
- The `class` attribute is emitted in sorted order (`utils.py:132`).

## Model

| member | source | states |
|---|---|---|
| `Strings.IsSpace` | bsforms/django_bootstrap_forms/utils.py:26 | the 29 characters Python 3's `str.isspace()` accepts, and so the separators `str.split()` uses here and at `utils.py:51` and `utils.py:124` |
| `Strings.Join` | bsforms/django_bootstrap_forms/utils.py:132 | `' '.join(ts)`: the strings of `ts` in order, with a single space between neighbours |
| `Strings.Less` | bsforms/django_bootstrap_forms/utils.py:132 | Python's `<` on `str`, which `sorted` uses: code-point lexicographic order, with a proper prefix first |
| `Strings.Split` | bsforms/django_bootstrap_forms/utils.py:26 | every token `str.split()` yields is non-empty and contains no whitespace |
| `Strings.SplitDropsOnlySpace` | bsforms/django_bootstrap_forms/utils.py:26 | the tokens of `s.split()`, concatenated, are `s` with exactly its whitespace removed: splitting loses nothing else |
| `Strings.SplitSkipsSpace` | bsforms/django_bootstrap_forms/utils.py:26 | leading whitespace of any length is skipped: `Split(w + s) == Split(s)` when `w` is all whitespace |
| `Strings.SplitFirstToken` | bsforms/django_bootstrap_forms/utils.py:26 | a token followed by a run of whitespace of any length is split off as the first token, and splitting carries on after the run |
| `Strings.SplitBlank` | bsforms/django_bootstrap_forms/utils.py:50-51 | a blank or empty class string contributes no tokens |
| `Strings.SplitJoin` | bsforms/django_bootstrap_forms/utils.py:132 | joining well-formed tokens with single spaces and splitting again gives back the same tokens in the same order |
| `Strings.SortedSet` | bsforms/django_bootstrap_forms/utils.py:132 | `sorted(classes)` holds exactly the members of the set, each once, strictly increasing in Python's string order |
| `Strings.LessTotal` | bsforms/django_bootstrap_forms/utils.py:132 | the order `sorted` uses is total and asymmetric on strings, so the sorted class list is determined by the set |
| `Strings.LeastExists` | bsforms/django_bootstrap_forms/utils.py:132 | every non-empty set of class names has a first element in that order |
| `Layers.UpdatePushesLayer` | bsforms/django_bootstrap_forms/utils.py:81-88 | `d.update(top)` turns the highest-layer values of a layer stack into those of the stack with `top` pushed on it |
| `Layers.HighestDefined` | bsforms/django_bootstrap_forms/utils.py:81-88 | a key is in the merged dict exactly when some layer defines it (the key set is the union) |
| `Layers.HighestFrom` | bsforms/django_bootstrap_forms/utils.py:81-88 | a key's merged value comes from layer `i` when `i` defines it and no higher layer does |
| `Utils.Missing` | bsforms/django_bootstrap_forms/utils.py:28 | the comprehension keeps every element of `add` absent from `orig`, as many times as `add` holds it, and removes every element present in `orig`; what it keeps stays in `add`'s order |
| `Utils.UpdateCssClasses` | bsforms/django_bootstrap_forms/utils.py:24-28 | `orig` is an unchanged prefix of the result; the rest are the tokens of `add` (a string split on whitespace first) that are not in `orig`, in `add`'s order, and repeats within `add` are kept |
| `Utils.UpdateCssClassesMembers` | bsforms/django_bootstrap_forms/utils.py:28 | the result's elements are exactly those of `orig` and `add`, and its length is at most `len(orig) + len(add)` |
| `Utils.UpdateCssClassesEmpty` | bsforms/django_bootstrap_forms/utils.py:24-28 | an empty or blank `add` yields a list equal to `orig` |
| `Utils.UpdateCssClassesExample` | bsforms/django_bootstrap_forms/utils.py:24-28 | merging `"b c"` into `["a", "b"]` gives `["a", "b", "c"]` |
| `Utils.GetLabelClasses` | bsforms/django_bootstrap_forms/utils.py:31-57 | a class is in the result exactly when it is a configured class, one from the widget or form hook when that exists, or one of the extra classes (the whitespace tokens of a string, the elements of a list or set) |
| `Utils.GetLabelAttrs` | bsforms/django_bootstrap_forms/utils.py:60-91 | `for` is always `id_for_label`, even when a layer sets it; every other attribute is present exactly when some layer sets it, and has the value of the highest layer in the order widget < form < settings < `extra_attrs`; a `None` `extra_attrs` counts as empty |
| `Utils.GetLabelContext` | bsforms/django_bootstrap_forms/utils.py:94-108 | every key has the value of the highest layer, in the same order as the attributes; the keys are exactly the union of the layers' keys; a `None` extra context counts as empty |
| `Utils.LabelClasses` | bsforms/django_bootstrap_forms/utils.py:116-129 | the label's classes are those of `get_label_classes` with the caller's `class` attribute as extra classes, plus `form-check-label` for a checkbox-like widget, the tokens of a non-empty `horizontal` and `col-form-label`, `col-form-label-<size>` for a non-empty `size`, and `sr-only` when `sronly` holds, and nothing else |
| `Utils.Label` | bsforms/django_bootstrap_forms/utils.py:111-138 | fails, changing nothing, exactly when `extra_context['attrs']` is not a dict; otherwise removes `attrs` from the caller's dict. The rendered `attrs['class']` is the space-join of the sorted class set, `attrs['for']` is `id_for_label`, and the other attributes come from the four layers with the caller's attributes (minus `class`) on top. `label` and `attrs` override merged context keys, the other context keys come from the layers with the rest of `extra_context` on top, and the template is the widget's non-empty `label_template_name` or else `bootstrap_forms/label.html` |
| `Utils.ClassAttrReadsBack` | bsforms/django_bootstrap_forms/utils.py:132 | when every class is a well-formed token, splitting the emitted `class` attribute gives the classes back, each once, in sorted order |
| `TemplateTags.Fallback` | bsforms/django_bootstrap_forms/templatetags/bootstrap_forms.py:26-27 | a non-empty explicit `horizontal` or `size` is passed through unchanged; otherwise the ambient `form_horizontal_label` or `form_size` is used, defaulting to `''` |
| `TemplateTags.FallbackFlag` | bsforms/django_bootstrap_forms/templatetags/bootstrap_forms.py:28 | `sronly` holds exactly when it was given as true or the ambient `form_sronly` is true |
| `TemplateTags.LabelTag` | bsforms/django_bootstrap_forms/templatetags/bootstrap_forms.py:23-31 | the tag renders what `label` renders for the resolved arguments, with `extra_context == {'attrs': attrs}`. The output `for` is always `id_for_label`, whatever the keywords say. Every token of a `class=` keyword is in the sorted class list of the `class` attribute. Any other keyword attribute is passed through over every configuration layer. Apart from `label` and `attrs`, no context key comes from the call site |

## Left out

- `widget._render(template_name, context)` and the HTML template it renders (`utils.py:140`).
  These are Django's rendering, so the model returns the template name and the context instead.
- Reading `settings.BOOTSTRAP_FORMS` when the module is imported (`utils.py:21`): it is the
  `settings` parameter of every member.
- `isinstance(widget, (CheckboxInput, RadioSelect))`, `getattr(widget, 'is_checkbox', False)` and
  the `hasattr` hook tests. These depend on Django's class hierarchy and on runtime introspection,
  so they are the `isCheckbox` flag and `Option` fields.
- `template.Library()` and the `@register.simple_tag` registration (`bootstrap_forms.py:20-23`):
  framework plumbing.
- bsforms/demo/forms.py: a form declaration with no logic.
- The template engine, the CSRF token and the other rendering-context plumbing of a Django tag.
  This tag does not touch them.
- Python truthiness of arbitrary values. `horizontal` and `size` are strings, and `''` counts as
  false. `sronly` and the ambient `form_sronly` are booleans, with a missing `form_sronly` read as
  false. Ambient values of other types are not modelled.
- Attribute values are strings. So a `class` attribute that is a list, which `get_label_classes`
  would accept, is not modelled.
- Hooks and settings of the wrong type, and an `extra_classes` that is neither a string, a list, a
  tuple nor a set (Python raises `TypeError`). These are not modelled.
- `update_css_classes` with a set as `add`: Python iterates a set in an unspecified order, so
  `UpdateCssClasses` takes only a whitespace-separated string or a list.
- `Split` uses the whitespace characters of Python 3's `str.isspace()`. It does not model Python 2
  byte strings, which `six.string_types` also admits.
- `Utils.Label`: the caller's nested `attrs` dict is a value here. `Label` does pop `class` from
  `extra_context['attrs']` before removing `attrs`. But another reference the caller keeps to that
  same dict object, which in Python would also lose `class`, is not modelled.
