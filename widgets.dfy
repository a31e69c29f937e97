/** The widget registry and the per-widget configuration lookups of
    `widgets/base.py`: registration by slug, lookup, listing in registration
    order, the enabled flag, the refresh interval, the template name and the
    rendered widget. */
module Widgets {
  import opened Common

  const DefaultIcon := "\U{1F4CA}"
  const DefaultRefreshInterval := 60
  const DefaultOrder := 0
  const TemplateDirectory := "netbox_insights_dashboard_plugin/widgets/"
  const TemplateSuffix := ".html"

  /** The class attributes of a widget class. `None` and the empty string both
      count as unset for the name and the template, as Python's `or` reads
      them. */
  datatype WidgetClass = WidgetClass(
    slug: string,
    name: Option<string>,
    description: Option<string>,
    icon: string,
    template: Option<string>,
    refreshInterval: int,
    order: int)

  /** A widget class with the base class defaults for everything but the
      slug and the name. */
  function DefaultWidget(slug: string, name: string): WidgetClass
  {
    WidgetClass(slug, Some(name), None, DefaultIcon, None, DefaultRefreshInterval, DefaultOrder)
  }

  /** Whether an optional string is truthy in Python. */
  predicate IsSet(s: Option<string>)
  {
    s.Some? && s.value != ""
  }

  // ------------------------------------------------------------- the registry

  /** The slugs in registration order after registering `slug`: a new slug
      goes last, a known one keeps its place (a dict assignment to an existing
      key does not move it). */
  function Enrolled(slugs: seq<string>, slug: string): (r: seq<string>)
    ensures slug in r
    ensures forall k :: k in r <==> k in slugs || k == slug
    ensures slug in slugs ==> r == slugs
    ensures slug !in slugs ==> |r| == |slugs| + 1 && r[..|slugs|] == slugs
  {
    if slug in slugs then slugs else slugs + [slug]
  }

  predicate NoDuplicates(slugs: seq<string>)
  {
    forall i, j :: 0 <= i < j < |slugs| ==> slugs[i] != slugs[j]
  }

  /** Registration keeps the slugs free of duplicates. */
  lemma EnrolledNoDuplicates(slugs: seq<string>, slug: string)
    requires NoDuplicates(slugs)
    ensures NoDuplicates(Enrolled(slugs, slug))
  {
    if slug !in slugs {
      var r := slugs + [slug];
      forall i, j | 0 <= i < j < |r| ensures r[i] != r[j] {
        if j == |slugs| {
          assert r[i] == slugs[i];
        } else {
          assert r[i] == slugs[i] && r[j] == slugs[j];
        }
      }
    }
  }

  /** The registered classes, listed in the order of their slugs. */
  function Values(slugs: seq<string>, widgets: map<string, WidgetClass>): (r: seq<WidgetClass>)
    requires forall k :: k in slugs ==> k in widgets
    ensures |r| == |slugs|
    ensures forall i :: 0 <= i < |slugs| ==> r[i] == widgets[slugs[i]]
  {
    if |slugs| == 0 then []
    else Values(slugs[..|slugs| - 1], widgets) + [widgets[slugs[|slugs| - 1]]]
  }

  /** A slug is listed once, so there are as many slugs as registered keys. */
  lemma {:induction false} DistinctCount(slugs: seq<string>)
    requires NoDuplicates(slugs)
    ensures |set k | k in slugs| == |slugs|
  {
    if |slugs| > 0 {
      var init := slugs[..|slugs| - 1];
      var last := slugs[|slugs| - 1];
      DistinctCount(init);
      assert last !in init by {
        forall i | 0 <= i < |init| ensures init[i] != last {
          assert init[i] == slugs[i];
        }
      }
      assert slugs == init + [last];
      assert (set k | k in slugs) == (set k | k in init) + {last};
    }
  }

  /** Registering a new slug lists its class after all the earlier ones. */
  lemma RegisterNewAppends(slugs: seq<string>, widgets: map<string, WidgetClass>, cls: WidgetClass)
    requires forall k :: k in slugs <==> k in widgets
    requires cls.slug !in widgets
    ensures Values(Enrolled(slugs, cls.slug), widgets[cls.slug := cls]) == Values(slugs, widgets) + [cls]
  {
    var updated := widgets[cls.slug := cls];
    var enrolled := slugs + [cls.slug];
    var before := Values(slugs, widgets);
    var after := Values(enrolled, updated);
    forall i | 0 <= i < |slugs| ensures after[i] == before[i] {
      assert enrolled[i] == slugs[i];
      assert slugs[i] != cls.slug;
    }
    assert after[|slugs|] == cls;
    assert after == before + [cls];
  }

  /** Registering a known slug replaces its class in place and leaves every
      other entry of the listing as it was. */
  lemma RegisterKnownReplaces(slugs: seq<string>, widgets: map<string, WidgetClass>, cls: WidgetClass, j: nat)
    requires NoDuplicates(slugs) && forall k :: k in slugs <==> k in widgets
    requires j < |slugs| && slugs[j] == cls.slug
    ensures Values(Enrolled(slugs, cls.slug), widgets[cls.slug := cls]) == Values(slugs, widgets)[j := cls]
  {
    var updated := widgets[cls.slug := cls];
    var before := Values(slugs, widgets);
    var after := Values(slugs, updated);
    forall i | 0 <= i < |slugs| ensures after[i] == before[j := cls][i] {
      if i != j {
        assert slugs[i] != cls.slug;
      }
    }
    assert after == before[j := cls];
  }

  /** After registration the class is listed. */
  lemma RegisteredIsListed(slugs: seq<string>, widgets: map<string, WidgetClass>, cls: WidgetClass)
    requires forall k :: k in slugs <==> k in widgets
    ensures cls in Values(Enrolled(slugs, cls.slug), widgets[cls.slug := cls])
  {
    var s := Enrolled(slugs, cls.slug);
    var updated := widgets[cls.slug := cls];
    var i: nat := if cls.slug in slugs then IndexOf(slugs, cls.slug) else |slugs|;
    assert s[i] == cls.slug;
    assert Values(s, updated)[i] == cls;
  }

  /** The registry of widget classes, keyed by slug. The slugs are kept in
      registration order, which is the order the dict lists its values in. */
  class Registry {
    var widgets: map<string, WidgetClass>
    var slugs: seq<string>

    ghost predicate Valid()
      reads this
    {
      NoDuplicates(slugs) && forall k :: k in slugs <==> k in widgets
    }

    constructor()
      ensures Valid() && widgets == map[] && slugs == []
    {
      widgets := map[];
      slugs := [];
    }

    /** `register_widget`: stores the class under its slug, replacing any
        earlier class with that slug, and hands the class back. */
    method Register(cls: WidgetClass) returns (r: WidgetClass)
      requires Valid()
      modifies this
      ensures Valid()
      ensures r == cls
      ensures widgets == old(widgets)[cls.slug := cls]
      ensures slugs == Enrolled(old(slugs), cls.slug)
    {
      EnrolledNoDuplicates(slugs, cls.slug);
      widgets := widgets[cls.slug := cls];
      slugs := Enrolled(slugs, cls.slug);
      r := cls;
    }

    /** `get_widget`: the class registered under the slug, if any. */
    function GetWidget(slug: string): (r: Option<WidgetClass>)
      reads this
      ensures r.Some? <==> slug in widgets
      ensures r.Some? ==> r.value == widgets[slug] && r.value in widgets.Values
    {
      if slug in widgets then Some(widgets[slug]) else None
    }

    /** `get_all_widgets`: every registered class exactly once, in
        registration order. */
    function AllWidgets(): (r: seq<WidgetClass>)
      reads this
      requires Valid()
      ensures |r| == |widgets|
      ensures forall i :: 0 <= i < |r| ==> r[i] in widgets.Values
      ensures forall k :: k in widgets ==> widgets[k] in r
    {
      DistinctCount(slugs);
      assert widgets.Keys == set k | k in slugs;
      var r := Values(slugs, widgets);
      assert forall k :: k in widgets ==> widgets[k] in r by {
        forall k | k in widgets ensures widgets[k] in r {
          var i :| 0 <= i < |slugs| && slugs[i] == k;
          assert r[i] == widgets[k];
        }
      }
      r
    }
  }

  // ------------------------------------------------------ configuration

  /** The settings of one widget under `widgets.<slug>` in the plugin
      configuration. */
  datatype WidgetSettings = WidgetSettings(enabled: Option<bool>, refreshInterval: Option<int>)

  /** The plugin configuration; only its `widgets` entry is read here. */
  datatype PluginConfig = PluginConfig(widgets: Option<map<string, WidgetSettings>>)

  /** `config.get('widgets', {}).get(slug, {})`: no settings at all when either
      level is missing. */
  function SettingsFor(config: PluginConfig, slug: string): (s: WidgetSettings)
    ensures (config.widgets.None? || slug !in config.widgets.value) ==> s == WidgetSettings(None, None)
    ensures config.widgets.Some? && slug in config.widgets.value ==> s == config.widgets.value[slug]
  {
    if config.widgets.Some? && slug in config.widgets.value then config.widgets.value[slug]
    else WidgetSettings(None, None)
  }

  /** `is_enabled`: a widget is off only when its settings say so. */
  function IsEnabled(config: PluginConfig, slug: string): (r: bool)
    ensures !r <==> config.widgets.Some? && slug in config.widgets.value
                    && config.widgets.value[slug].enabled == Some(false)
  {
    var settings := SettingsFor(config, slug);
    if settings.enabled.Some? then settings.enabled.value else true
  }

  /** `get_refresh_interval`: the configured interval, else the class's own. */
  function RefreshInterval(w: WidgetClass, config: PluginConfig): (r: int)
    ensures SettingsFor(config, w.slug).refreshInterval.Some? ==> r == SettingsFor(config, w.slug).refreshInterval.value
    ensures SettingsFor(config, w.slug).refreshInterval.None? ==> r == w.refreshInterval
  {
    var settings := SettingsFor(config, w.slug);
    if settings.refreshInterval.Some? then settings.refreshInterval.value else w.refreshInterval
  }

  /** A configuration that says nothing about a widget leaves it enabled with
      its class's refresh interval; settings for other widgets do not matter. */
  lemma UnconfiguredDefaults(w: WidgetClass, config: PluginConfig, other: string, s: WidgetSettings)
    requires config.widgets.Some? && w.slug !in config.widgets.value && other != w.slug
    ensures IsEnabled(config, w.slug)
    ensures RefreshInterval(w, config) == w.refreshInterval
    ensures IsEnabled(PluginConfig(Some(config.widgets.value[other := s])), w.slug)
    ensures RefreshInterval(w, PluginConfig(Some(config.widgets.value[other := s]))) == w.refreshInterval
  {
  }

  /** The template path derived from a slug. */
  function DerivedTemplate(slug: string): string
  {
    TemplateDirectory + slug + TemplateSuffix
  }

  /** `get_template_name`: the class's template if it is set, else the path
      derived from the slug. */
  function TemplateName(w: WidgetClass): (r: string)
    ensures IsSet(w.template) ==> r == w.template.value
    ensures !IsSet(w.template) ==> r == DerivedTemplate(w.slug)
  {
    if IsSet(w.template) then w.template.value else DerivedTemplate(w.slug)
  }

  /** Two widgets without their own template share a template name only when
      they share a slug. */
  lemma DerivedTemplateInjective(a: WidgetClass, b: WidgetClass)
    requires !IsSet(a.template) && !IsSet(b.template)
    ensures TemplateName(a) == TemplateName(b) <==> a.slug == b.slug
  {
    if TemplateName(a) == TemplateName(b) {
      var ta, tb := DerivedTemplate(a.slug), DerivedTemplate(b.slug);
      var n := |TemplateDirectory|;
      assert |ta| == |tb|;
      assert ta[n..|ta| - |TemplateSuffix|] == a.slug;
      assert tb[n..|tb| - |TemplateSuffix|] == b.slug;
    }
  }

  /** `__str__`: the name if it is set, else the slug. */
  function DisplayName(w: WidgetClass): (r: string)
    ensures IsSet(w.name) ==> r == w.name.value
    ensures !IsSet(w.name) ==> r == w.slug
  {
    if IsSet(w.name) then w.name.value else w.slug
  }

  // ---------------------------------------------------------------- render

  /** The context of a rendered widget: `{}` for a disabled one. */
  datatype WidgetContext<C> = NoContext | Context(data: C)

  datatype RenderedWidget<C> = RenderedWidget(
    slug: string,
    name: Option<string>,
    description: Option<string>,
    icon: string,
    template: string,
    refreshInterval: int,
    order: int,
    enabled: bool,
    context: WidgetContext<C>)

  /** `render`, given what the widget's `get_context_data` returns. */
  function Render<C>(w: WidgetClass, config: PluginConfig, data: C): (r: RenderedWidget<C>)
    ensures r.slug == w.slug && r.name == w.name && r.description == w.description
    ensures r.icon == w.icon && r.order == w.order
    ensures r.template == TemplateName(w) && r.refreshInterval == RefreshInterval(w, config)
    ensures r.enabled == IsEnabled(config, w.slug)
    ensures r.context.NoContext? <==> !r.enabled
    ensures r.enabled ==> r.context == Context(data)
  {
    var enabled := IsEnabled(config, w.slug);
    RenderedWidget(w.slug, w.name, w.description, w.icon, TemplateName(w), RefreshInterval(w, config),
                   w.order, enabled, if enabled then Context(data) else NoContext)
  }

  /** A disabled widget shows nothing of its data: its rendering is the same
      whatever `get_context_data` would return. */
  lemma DisabledHidesData<C>(w: WidgetClass, config: PluginConfig, data: C, other: C)
    requires !IsEnabled(config, w.slug)
    ensures Render(w, config, data) == Render(w, config, other)
  {
  }
}
