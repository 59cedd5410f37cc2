/**
 * The `label` template tag of django_bootstrap_forms/templatetags/bootstrap_forms.py:
 * explicit arguments fall back to values of the template context the tag is
 * used in, and the keyword attributes are handed to `label` as its extra
 * context.
 */
module TemplateTags {
  import opened Wrappers
  import opened Strings
  import opened Layers
  import opened Utils

  /** The keys of the ambient template context the tag reads; None when a key is not set. */
  datatype TagContext = TagContext(
    formHorizontalLabel: Option<string>,
    formSize: Option<string>,
    formSronly: Option<bool>)

  /** `explicit or context.get(key, '')` for a string argument ('' is false). */
  function Fallback(explicit: string, ambient: Option<string>): (r: string)
    ensures explicit != "" ==> r == explicit
    ensures explicit == "" && ambient.Some? ==> r == ambient.value
    ensures explicit == "" && ambient.None? ==> r == ""
  {
    if explicit != "" then explicit else ambient.GetOr("")
  }

  /** `sronly or context.get('form_sronly', '')`, as a truth value ('' is false). */
  function FallbackFlag(explicit: bool, ambient: Option<bool>): (r: bool)
    ensures r <==> explicit || ambient == Some(true)
  {
    explicit || ambient.GetOr(false)
  }

  /**
   * `label_tag(context, field, horizontal, size, sronly, **attrs)`: resolves the
   * three special parameters against the template context and renders the
   * label with `extra_context == {'attrs': attrs}`. Whatever the keywords say,
   * `for` is the field's label target; a `class` keyword is merged into the
   * sorted class list; any other keyword beats every configuration layer; and
   * no extra context keys reach the label besides `label` and `attrs`.
   */
  method LabelTag(settings: Settings, context: TagContext, field: BoundField,
                  horizontal: string, size: string, sronly: bool, attrs: map<string, string>)
    returns (r: Rendering, ghost classes: set<string>)
    ensures IsLabelRendering(settings, field,
      Fallback(horizontal, context.formHorizontalLabel), Fallback(size, context.formSize),
      FallbackFlag(sronly, context.formSronly), map["attrs" := AttrMap(attrs)], r, classes)
    ensures "attrs" in r.context && r.context["attrs"].AttrMap?
    ensures var out := r.context["attrs"].attrs;
      && "for" in out && out["for"] == field.idForLabel
      && "class" in out && out["class"] == Join(SortedSet(classes))
      && ("class" in attrs ==> forall c :: c in Split(attrs["class"]) ==> c in SortedSet(classes))
      && forall k :: k in attrs && k != "for" && k != "class" ==> k in out && out[k] == attrs[k]
    ensures forall k :: k != "label" && k != "attrs" ==>
      Lookup(r.context, k) == Highest(ContextLayers(settings, field, map[]), k)
  {
    var h := Fallback(horizontal, context.formHorizontalLabel);
    var s := Fallback(size, context.formSize);
    var sr := FallbackFlag(sronly, context.formSronly);
    var extraContext := new Dict(map["attrs" := AttrMap(attrs)]);
    var result;
    result, classes := Label(settings, field, h, s, sr, extraContext);
    // The extra context holds a dict under 'attrs', so `label` cannot fail.
    r := result.value;
    ghost var extra := map["attrs" := AttrMap(attrs)];
    assert CallerAttrs(extra) == attrs;
    assert extra - {"attrs"} == map[];
    forall k | k in attrs && k != "for" && k != "class"
      ensures Lookup(r.context["attrs"].attrs, k) == Some(attrs[k])
    {
      assert Highest(AttrLayers(settings, field, attrs - {"class"}), k) == Some(attrs[k]);
    }
  }
}
