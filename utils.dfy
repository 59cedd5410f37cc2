/**
 * The label helpers of django_bootstrap_forms/utils.py: merging CSS class
 * lists, computing a label's classes, attributes and extra template context
 * from four configuration layers, and assembling what `label` renders.
 *
 * The library's settings (`settings.BOOTSTRAP_FORMS`) are an explicit
 * parameter; widget and form hooks are optional values; the final call to the
 * widget's renderer is replaced by returning the template name and context.
 */
module Utils {
  import opened Wrappers
  import opened Strings
  import opened Layers

  /** A value in a template context. */
  datatype Value =
    | Text(text: string)                    // a string, such as the label text
    | AttrMap(attrs: map<string, string>)   // an attribute dict, such as `attrs`
    | Other(token: nat)                     // any other object, known only by identity

  /** The optional hook methods a widget or a form may define; None when it does not. */
  datatype Hooks = Hooks(
    labelClasses: Option<set<string>>,           // get_label_classes()
    labelAttrs: Option<map<string, string>>,     // get_label_attrs()
    labelContext: Option<map<string, Value>>)    // get_label_context()

  /**
   * A field's widget. `isCheckbox` holds when the widget is a CheckboxInput or
   * a RadioSelect or has a truthy `is_checkbox`; `labelTemplateName` is its
   * `label_template_name` attribute, if it has one.
   */
  datatype Widget = Widget(hooks: Hooks, isCheckbox: bool, labelTemplateName: Option<string>)

  datatype Form = Form(hooks: Hooks)

  /** The bound field a label is rendered for; `labelText` is its `label`. */
  datatype BoundField = BoundField(labelText: string, idForLabel: string, form: Form, widget: Widget)

  /** `settings.BOOTSTRAP_FORMS`; a key it does not set is empty here. */
  datatype Settings = Settings(
    labelClasses: seq<string>,
    labelAttrs: map<string, string>,
    labelContext: map<string, Value>)

  // ---------------------------------------------------------------------------
  // update_css_classes

  /** The `add` argument of `update_css_classes`: a whitespace-separated string, or a list. */
  datatype ClassList = Words(text: string) | Items(items: seq<string>)

  /** The tokens `add` is iterated over: a string is split on whitespace first. */
  function Tokens(add: ClassList): seq<string> {
    match add
    case Words(s) => Split(s)
    case Items(xs) => xs
  }

  /** `a` is `b` with some elements left out, the rest in order. */
  predicate IsSubseq(a: seq<string>, b: seq<string>)
    decreases |b|
  {
    if a == [] then true
    else if b == [] then false
    else (a[0] == b[0] && IsSubseq(a[1..], b[1..])) || IsSubseq(a, b[1..])
  }

  /**
   * `[e for e in add if e not in orig]`: every element of `add` that `orig`
   * lacks, as often as `add` holds it, in `add`'s order.
   */
  function Missing(add: seq<string>, orig: seq<string>): (r: seq<string>)
    ensures forall x :: multiset(r)[x] == if x in orig then 0 else multiset(add)[x]
    ensures IsSubseq(r, add)
  {
    if add == [] then []
    else
      assert add == [add[0]] + add[1..];
      var rest := Missing(add[1..], orig);
      if add[0] in orig then
        rest
      else
        assert ([add[0]] + rest)[1..] == rest;
        [add[0]] + rest
  }

  /**
   * `update_css_classes(orig, add)`: `orig` unchanged, followed by the tokens of
   * `add` not in `orig`. Repeats inside `add` are not removed.
   */
  function UpdateCssClasses(orig: seq<string>, add: ClassList): (r: seq<string>)
    ensures |orig| <= |r| && r[..|orig|] == orig
    ensures IsSubseq(r[|orig|..], Tokens(add))
    ensures forall x :: x !in orig ==> multiset(r[|orig|..])[x] == multiset(Tokens(add))[x]
    ensures forall i :: |orig| <= i < |r| ==> r[i] !in orig
  {
    var tail := Missing(Tokens(add), orig);
    assert (orig + tail)[|orig|..] == tail;
    assert forall i :: |orig| <= i < |orig + tail| ==> (orig + tail)[i] in multiset(tail);
    orig + tail
  }

  lemma {:induction false} SubseqShorter(a: seq<string>, b: seq<string>)
    requires IsSubseq(a, b)
    ensures |a| <= |b|
    ensures forall x :: x in a ==> x in b
    decreases |b|
  {
    if a != [] {
      if a[0] == b[0] && IsSubseq(a[1..], b[1..]) {
        SubseqShorter(a[1..], b[1..]);
        assert a == [a[0]] + a[1..];
      } else {
        SubseqShorter(a, b[1..]);
      }
    }
  }

  /**
   * The merged list holds exactly the classes of `orig` and of `add`, and is no
   * longer than both together.
   */
  lemma UpdateCssClassesMembers(orig: seq<string>, add: ClassList)
    ensures var r := UpdateCssClasses(orig, add);
      && (forall x :: x in r <==> x in orig || x in Tokens(add))
      && |r| <= |orig| + |Tokens(add)|
  {
    var r := UpdateCssClasses(orig, add);
    var tail := r[|orig|..];
    assert r == orig + tail;
    SubseqShorter(tail, Tokens(add));
    forall x | x in Tokens(add) && x !in orig ensures x in r {
      assert multiset(tail)[x] > 0;
    }
  }

  /** An empty (or blank) addend gives back `orig`. */
  lemma UpdateCssClassesEmpty(orig: seq<string>, add: ClassList)
    requires Tokens(add) == []
    ensures UpdateCssClasses(orig, add) == orig
  {
  }

  /** Merging "b c" into ["a", "b"] appends only "c". */
  lemma UpdateCssClassesExample()
    ensures UpdateCssClasses(["a", "b"], Words("b c")) == ["a", "b", "c"]
  {
    var orig := ["a", "b"];
    assert Join(["b", "c"]) == "b c";
    SplitJoin(["b", "c"]);
    assert Tokens(Words("b c")) == ["b", "c"];
    assert Missing([], orig) == [];
    assert Missing(["c"], orig) == ["c"];
    assert Missing(["b", "c"], orig) == ["c"];
  }

  // ---------------------------------------------------------------------------
  // get_label_classes

  /** The `extra_classes` argument: a string, a list or tuple, or a set. */
  datatype ExtraClasses = ExtraWords(text: string) | ExtraItems(items: seq<string>) | ExtraSet(members: set<string>)

  /** `c` is one of the classes `extra` contributes. */
  predicate Supplies(extra: ExtraClasses, c: string) {
    match extra
    case ExtraWords(s) => c in Split(s)
    case ExtraItems(xs) => c in xs
    case ExtraSet(m) => c in m
  }

  /** `c` is among the classes a hook returns; a missing hook returns none. */
  predicate HookHas(hook: Option<set<string>>, c: string) {
    hook.Some? && c in hook.value
  }

  /**
   * `get_label_classes(field, extra_classes)`: the union of the configured
   * classes, the widget's and the form's hook classes, and `extra_classes`.
   */
  method GetLabelClasses(settings: Settings, field: BoundField, extraClasses: ExtraClasses)
    returns (classes: set<string>)
    ensures forall c :: c in classes <==>
      || c in settings.labelClasses
      || HookHas(field.widget.hooks.labelClasses, c)
      || HookHas(field.form.hooks.labelClasses, c)
      || Supplies(extraClasses, c)
  {
    classes := set c | c in settings.labelClasses;
    if field.widget.hooks.labelClasses.Some? {
      classes := classes + field.widget.hooks.labelClasses.value;
    }
    if field.form.hooks.labelClasses.Some? {
      classes := classes + field.form.hooks.labelClasses.value;
    }
    match extraClasses {
      case ExtraWords(s) => classes := classes + set t | t in Split(s);
      case ExtraItems(xs) => classes := classes + set t | t in xs;
      case ExtraSet(m) => classes := classes + m;
    }
  }

  // ---------------------------------------------------------------------------
  // get_label_attrs and get_label_context

  /** The attribute layers, lowest first: widget hook, form hook, settings, call site. */
  function AttrLayers(settings: Settings, field: BoundField, extraAttrs: map<string, string>)
    : seq<map<string, string>>
  {
    [field.widget.hooks.labelAttrs.GetOr(map[]), field.form.hooks.labelAttrs.GetOr(map[]),
     settings.labelAttrs, extraAttrs]
  }

  /**
   * `get_label_attrs(field, extra_attrs)`: every attribute but `for` has the
   * value of the highest layer that sets it; `for` is the field's label target.
   */
  method GetLabelAttrs(settings: Settings, field: BoundField, extraAttrs: Option<map<string, string>>)
    returns (labelAttrs: map<string, string>)
    ensures "for" in labelAttrs && labelAttrs["for"] == field.idForLabel
    ensures forall k :: k != "for" ==>
      Lookup(labelAttrs, k) == Highest(AttrLayers(settings, field, extraAttrs.GetOr(map[])), k)
  {
    var extra := extraAttrs.GetOr(map[]);
    ghost var layers: seq<map<string, string>> := [];
    labelAttrs := map[];
    if field.widget.hooks.labelAttrs.Some? {
      UpdatePushesLayer(labelAttrs, layers, field.widget.hooks.labelAttrs.value);
      labelAttrs, layers := labelAttrs + field.widget.hooks.labelAttrs.value, layers + [field.widget.hooks.labelAttrs.value];
    } else {
      UpdatePushesLayer(labelAttrs, layers, map[]);
      layers := layers + [map[]];
    }
    if field.form.hooks.labelAttrs.Some? {
      UpdatePushesLayer(labelAttrs, layers, field.form.hooks.labelAttrs.value);
      labelAttrs, layers := labelAttrs + field.form.hooks.labelAttrs.value, layers + [field.form.hooks.labelAttrs.value];
    } else {
      UpdatePushesLayer(labelAttrs, layers, map[]);
      layers := layers + [map[]];
    }
    UpdatePushesLayer(labelAttrs, layers, settings.labelAttrs);
    labelAttrs, layers := labelAttrs + settings.labelAttrs, layers + [settings.labelAttrs];
    UpdatePushesLayer(labelAttrs, layers, extra);
    labelAttrs, layers := labelAttrs + extra, layers + [extra];
    assert layers == AttrLayers(settings, field, extra);
    labelAttrs := labelAttrs["for" := field.idForLabel];
  }

  /** The context layers, lowest first: widget hook, form hook, settings, call site. */
  function ContextLayers(settings: Settings, field: BoundField, extraContext: map<string, Value>)
    : seq<map<string, Value>>
  {
    [field.widget.hooks.labelContext.GetOr(map[]), field.form.hooks.labelContext.GetOr(map[]),
     settings.labelContext, extraContext]
  }

  /**
   * `get_label_context(field, extra_context)`: every key has the value of the
   * highest layer that sets it, and only keys some layer sets are present.
   */
  method GetLabelContext(settings: Settings, field: BoundField, extraContext: Option<map<string, Value>>)
    returns (ctx: map<string, Value>)
    ensures forall k :: Lookup(ctx, k) == Highest(ContextLayers(settings, field, extraContext.GetOr(map[])), k)
  {
    var extra := extraContext.GetOr(map[]);
    ghost var layers: seq<map<string, Value>> := [];
    ctx := map[];
    if field.widget.hooks.labelContext.Some? {
      UpdatePushesLayer(ctx, layers, field.widget.hooks.labelContext.value);
      ctx, layers := ctx + field.widget.hooks.labelContext.value, layers + [field.widget.hooks.labelContext.value];
    } else {
      UpdatePushesLayer(ctx, layers, map[]);
      layers := layers + [map[]];
    }
    if field.form.hooks.labelContext.Some? {
      UpdatePushesLayer(ctx, layers, field.form.hooks.labelContext.value);
      ctx, layers := ctx + field.form.hooks.labelContext.value, layers + [field.form.hooks.labelContext.value];
    } else {
      UpdatePushesLayer(ctx, layers, map[]);
      layers := layers + [map[]];
    }
    UpdatePushesLayer(ctx, layers, settings.labelContext);
    ctx, layers := ctx + settings.labelContext, layers + [settings.labelContext];
    UpdatePushesLayer(ctx, layers, extra);
    ctx, layers := ctx + extra, layers + [extra];
    assert layers == ContextLayers(settings, field, extra);
  }

  // ---------------------------------------------------------------------------
  // label

  /** The template used when the widget names none. */
  const DefaultTemplate: string := "bootstrap_forms/label.html"

  /** What `label` hands to the widget's renderer: a template name and its context. */
  datatype Rendering = Rendering(templateName: string, context: map<string, Value>)

  /** `extra_context['attrs']` is not a dict, so popping `'class'` from it raises. */
  datatype LabelError = AttrsNotAMapping

  /** A dict the caller owns and `label` changes in place: its `extra_context`. */
  class Dict {
    var entries: map<string, Value>

    constructor (entries: map<string, Value>)
      ensures this.entries == entries
    {
      this.entries := entries;
    }
  }

  /** The entries of an optional dict; None (`null`) stands for an empty one. */
  function EntriesOf(d: Dict?): map<string, Value>
    reads d
  {
    if d == null then map[] else d.entries
  }

  /** The caller's attribute dict `extra_context['attrs']`, empty when absent. */
  function CallerAttrs(extra: map<string, Value>): map<string, string> {
    if "attrs" in extra && extra["attrs"].AttrMap? then extra["attrs"].attrs else map[]
  }

  /** The caller's `class` attribute, `''` when absent. */
  function CallerClass(extra: map<string, Value>): string {
    var attrs := CallerAttrs(extra);
    if "class" in attrs then attrs["class"] else ""
  }

  /** `c` is one of the classes `label` puts on the label. */
  predicate IsLabelClass(settings: Settings, field: BoundField, callerClass: string,
                         horizontal: string, size: string, sronly: bool, c: string)
  {
    || c in settings.labelClasses
    || HookHas(field.widget.hooks.labelClasses, c)
    || HookHas(field.form.hooks.labelClasses, c)
    || c in Split(callerClass)
    || (field.widget.isCheckbox && c == "form-check-label")
    || (horizontal != "" && (c in Split(horizontal) || c == "col-form-label"))
    || (size != "" && c == "col-form-label-" + size)
    || (sronly && c == "sr-only")
  }

  /** The widget names a template of its own: a non-empty `label_template_name`. */
  predicate HasOwnTemplate(widget: Widget) {
    widget.labelTemplateName.Some? && widget.labelTemplateName.value != ""
  }

  /**
   * What `label` promises of the pair it renders, given the caller's
   * `extra_context` as it was on entry, and the set of classes it computed.
   */
  ghost predicate IsLabelRendering(settings: Settings, field: BoundField, horizontal: string, size: string,
                             sronly: bool, extra: map<string, Value>, out: Rendering, classes: set<string>)
  {
    && (HasOwnTemplate(field.widget) ==> out.templateName == field.widget.labelTemplateName.value)
    && (!HasOwnTemplate(field.widget) ==> out.templateName == DefaultTemplate)
    && (forall c :: c in classes <==> IsLabelClass(settings, field, CallerClass(extra), horizontal, size, sronly, c))
    && "label" in out.context && out.context["label"] == Text(field.labelText)
    && "attrs" in out.context && out.context["attrs"].AttrMap?
    && (var attrs := out.context["attrs"].attrs;
        && "for" in attrs && attrs["for"] == field.idForLabel
        && "class" in attrs && attrs["class"] == Join(SortedSet(classes))
        && forall k :: k != "for" && k != "class" ==>
             Lookup(attrs, k) == Highest(AttrLayers(settings, field, CallerAttrs(extra) - {"class"}), k))
    && forall k :: k != "label" && k != "attrs" ==>
         Lookup(out.context, k) == Highest(ContextLayers(settings, field, extra - {"attrs"}), k)
  }

  /**
   * The part of `label` that computes the class set: the classes of
   * `get_label_classes` with the caller's `class` attribute as extra classes,
   * then the classes the widget kind and the special parameters add.
   */
  method LabelClasses(settings: Settings, field: BoundField, callerClass: string,
                      horizontal: string, size: string, sronly: bool)
    returns (classes: set<string>)
    ensures forall c :: c in classes <==> IsLabelClass(settings, field, callerClass, horizontal, size, sronly, c)
  {
    classes := GetLabelClasses(settings, field, ExtraWords(callerClass));
    if field.widget.isCheckbox {
      classes := classes + {"form-check-label"};
    }
    // The special parameters.
    if horizontal != "" {
      classes := classes + set t | t in Split(horizontal);
      classes := classes + {"col-form-label"};
    }
    if size != "" {
      classes := classes + {"col-form-label-" + size};
    }
    if sronly {
      classes := classes + {"sr-only"};
    }
  }

  /**
   * `label(boundfield, horizontal, size, sronly, extra_context)`, up to the
   * call of the widget's renderer. It pops `'class'` out of the caller's
   * `extra_context['attrs']` and then `'attrs'` out of `extra_context`; it
   * fails, changing nothing, when `extra_context['attrs']` is not a dict.
   */
  method Label(settings: Settings, field: BoundField, horizontal: string, size: string, sronly: bool,
               extraContext: Dict?)
    returns (r: Result<Rendering, LabelError>, ghost classes: set<string>)
    modifies extraContext
    ensures var extra := old(EntriesOf(extraContext));
      r.Err? <==> "attrs" in extra && !extra["attrs"].AttrMap?
    ensures extraContext != null ==>
      extraContext.entries == if r.Ok? then old(extraContext.entries) - {"attrs"} else old(extraContext.entries)
    ensures r.Ok? ==>
      IsLabelRendering(settings, field, horizontal, size, sronly, old(EntriesOf(extraContext)), r.value, classes)
  {
    var extra := EntriesOf(extraContext);
    ghost var original := extra;

    // Pop the caller's 'class' attribute so that it is merged, not copied.
    var extraClass := "";
    if "attrs" in extra {
      if !extra["attrs"].AttrMap? {
        r, classes := Err(AttrsNotAMapping), {};
        return;
      }
      var callerAttrs := extra["attrs"].attrs;
      if "class" in callerAttrs {
        extraClass := callerAttrs["class"];
        extra := extra["attrs" := AttrMap(callerAttrs - {"class"})];
        if extraContext != null {
          extraContext.entries := extra;
        }
      }
    }
    assert extraClass == CallerClass(original);

    var labelClasses := LabelClasses(settings, field, extraClass, horizontal, size, sronly);
    classes := labelClasses;

    // Pop 'attrs' itself; what is left is the caller's extra context.
    var extraAttrs := CallerAttrs(extra);
    assert extraAttrs == CallerAttrs(original) - {"class"};
    extra := extra - {"attrs"};
    assert extra == original - {"attrs"};
    if extraContext != null {
      extraContext.entries := extra;
    }

    var attrs := GetLabelAttrs(settings, field, Some(extraAttrs));
    ghost var merged := attrs;
    attrs := attrs["class" := Join(SortedSet(labelClasses))];
    assert forall k :: k != "class" ==> Lookup(attrs, k) == Lookup(merged, k);

    var ctx := GetLabelContext(settings, field, Some(extra));
    ghost var mergedCtx := ctx;
    ctx := ctx["label" := Text(field.labelText)]["attrs" := AttrMap(attrs)];
    assert forall k :: k != "label" && k != "attrs" ==> Lookup(ctx, k) == Lookup(mergedCtx, k);

    var templateName := DefaultTemplate;
    if HasOwnTemplate(field.widget) {
      templateName := field.widget.labelTemplateName.value;
    }
    r := Ok(Rendering(templateName, ctx));
  }

  /**
   * When every class is a well-formed token, the `class` attribute `label`
   * writes, read back by splitting on whitespace, lists each class exactly
   * once and in sorted order.
   */
  lemma ClassAttrReadsBack(classes: set<string>)
    requires forall c :: c in classes ==> IsToken(c)
    ensures Split(Join(SortedSet(classes))) == SortedSet(classes)
    ensures StrictlySorted(Split(Join(SortedSet(classes))))
  {
    var sorted := SortedSet(classes);
    assert forall i :: 0 <= i < |sorted| ==> sorted[i] in classes;
    SplitJoin(sorted);
  }
}
