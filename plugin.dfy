/**
  The plugin's main class (`ExamplePlugin\Plugin`): a process-wide singleton
  that registers its lifecycle callbacks with the host, installs default
  options on activation and lazily creates its admin and public hook managers.

  The framework base class `Component` is modelled only as what it holds, a
  name and a version; `AdminHooks`, `PublicHooks` and `Settings` are the
  plugin's three sub-components, kept here as that identity alone.
 */
module ExamplePlugin {
  import opened Host

  const CapacityKey: string := "example_plugin_default_capacity"
  const DateFormatKey: string := "example_plugin_date_format"
  const BadgeKey: string := "example_plugin_show_virtual_badge"

  const DefaultCapacity: Value := Int(50)
  const DefaultDateFormat: Value := Str("Y-m-d")
  const DefaultBadge: Value := Str("true")

  /** The three options `activate()` installs, with their defaults. */
  const Defaults: map<string, Value> :=
    map[CapacityKey := DefaultCapacity, DateFormatKey := DefaultDateFormat, BadgeKey := DefaultBadge]

  // ---------------------------------------------------------------------------
  // Activation, as a function of the option table
  // ---------------------------------------------------------------------------

  /** Reference meaning of `activate()` on the option table: every default key
      that reads back as `false` takes its default, every other entry is kept. */
  function ActivatedTable(t: OptionTable): (r: OptionTable)
    ensures forall k :: k in Defaults ==> k in r && r[k] != False
    ensures forall k :: k in t && !Unset(t, k) ==> k in r && r[k] == t[k]
  {
    map k | k in t.Keys + Defaults.Keys :: if k in Defaults && Unset(t, k) then Defaults[k] else t[k]
  }

  /** One statement `if (false === get_option(key)) update_option(key, v);`. */
  function SetIfAbsent(t: OptionTable, key: string, v: Value): (r: OptionTable)
    ensures r.Keys == t.Keys + {key}
    ensures r[key] == if Unset(t, key) then v else t[key]
    ensures forall k :: k in t && k != key ==> r[k] == t[k]
  {
    if Unset(t, key) then t[key := v] else t
  }

  /** The three guarded updates of `activate()`, run in source order, give
      exactly the reference table. */
  lemma ActivationSteps(t: OptionTable)
    ensures SetIfAbsent(SetIfAbsent(SetIfAbsent(t, CapacityKey, DefaultCapacity),
                                    DateFormatKey, DefaultDateFormat),
                        BadgeKey, DefaultBadge) == ActivatedTable(t)
  {
  }

  /** The value every default key holds after activation: its default when it
      read back as `false` (missing, or stored as literal `false`), and its old
      value otherwise. */
  lemma ActivatedDefaultKey(t: OptionTable, k: string)
    requires k in Defaults
    ensures k in ActivatedTable(t)
    ensures ActivatedTable(t)[k] == if Unset(t, k) then Defaults[k] else t[k]
    ensures ActivatedTable(t)[k] != False
  {
  }

  /** A key that already holds a value other than `false` keeps it. */
  lemma ActivationPreservesSetValues(t: OptionTable, k: string)
    requires !Unset(t, k)
    ensures k in ActivatedTable(t) && ActivatedTable(t)[k] == t[k]
  {
  }

  /** Keys outside the three defaults neither appear, disappear nor change. */
  lemma ActivationLeavesOtherKeys(t: OptionTable, k: string)
    requires k !in Defaults
    ensures k in ActivatedTable(t) <==> k in t
    ensures k in t ==> ActivatedTable(t)[k] == t[k]
  {
  }

  /** Activation deletes nothing and adds only the three default keys. */
  lemma ActivationKeys(t: OptionTable)
    ensures ActivatedTable(t).Keys == t.Keys + Defaults.Keys
  {
  }

  /** Fresh install: an empty table receives capacity 50, date format "Y-m-d"
      and show-virtual-badge "true", and nothing else. */
  lemma ActivationOnFreshInstall()
    ensures ActivatedTable(map[]) ==
            map[CapacityKey := Int(50), DateFormatKey := Str("Y-m-d"), BadgeKey := Str("true")]
  {
  }

  /** A customised capacity of 100 survives a later activation. */
  lemma CustomisedCapacitySurvives(t: OptionTable)
    requires CapacityKey in t && t[CapacityKey] == Int(100)
    ensures ActivatedTable(t)[CapacityKey] == Int(100)
  {
  }

  /** Activating twice leaves the same table as activating once. */
  lemma ActivationIdempotent(t: OptionTable)
    ensures ActivatedTable(ActivatedTable(t)) == ActivatedTable(t)
  {
  }

  /** The table after `n` activations in a row. */
  function ActivatedTimes(t: OptionTable, n: nat): OptionTable
  {
    if n == 0 then t else ActivatedTable(ActivatedTimes(t, n - 1))
  }

  /** Any number of repeated activations (at least one) gives the table of the
      first: the defaults are written once and never again. */
  lemma {:induction false} RepeatedActivation(t: OptionTable, n: nat)
    requires n >= 1
    ensures ActivatedTimes(t, n) == ActivatedTable(t)
  {
    if n > 1 {
      RepeatedActivation(t, n - 1);
      ActivationIdempotent(t);
    }
  }

  // ---------------------------------------------------------------------------
  // Components
  // ---------------------------------------------------------------------------

  /** `AdminHooks extends Component`: the admin-area hook manager. */
  class AdminHooks {
    const name: string
    const version: string

    constructor (name: string, version: string)
      ensures this.name == name && this.version == version
    {
      this.name := name;
      this.version := version;
    }
  }

  /** `PublicHooks extends Component`: the front-end hook manager. */
  class PublicHooks {
    const name: string
    const version: string

    constructor (name: string, version: string)
      ensures this.name == name && this.version == version
    {
      this.name := name;
      this.version := version;
    }
  }

  /** `Settings extends SettingsCore`: the settings controller. */
  class Settings {
    const name: string
    const version: string

    constructor (name: string, version: string)
      ensures this.name == name && this.version == version
    {
      this.name := name;
      this.version := version;
    }
  }

  // ---------------------------------------------------------------------------
  // The plugin object
  // ---------------------------------------------------------------------------

  class Plugin {
    const name: string
    const version: string
    var adminHooks: AdminHooks?
    var publicHooks: PublicHooks?
    var settings: Settings?

    /** The three private fields are assigned only by `run()` and the lazy
        getters, each with an object built from this plugin's own name and
        version: every one of them is null or carries that identity. */
    predicate Valid()
      reads this
    {
      (adminHooks != null ==> adminHooks.name == name && adminHooks.version == version) &&
      (publicHooks != null ==> publicHooks.name == name && publicHooks.version == version) &&
      (settings != null ==> settings.name == name && settings.version == version)
    }

    /** `new Plugin(name, version)`: no sub-component exists yet. */
    constructor (name: string, version: string)
      ensures this.name == name && this.version == version
      ensures adminHooks == null && publicHooks == null && settings == null
      ensures Valid()
    {
      this.name := name;
      this.version := version;
      adminHooks := null;
      publicHooks := null;
      settings := null;
    }

    /** `run()`: registers activation and deactivation, creates a new settings
        controller, and registers the four action callbacks, in this order. */
    method Run(site: Site, pluginFile: string)
      requires Valid()
      modifies this`settings, site`registry
      ensures Valid()
      ensures settings != null && fresh(settings)
      ensures settings.name == name && settings.version == version
      ensures site.registry == old(site.registry) + [
        ActivationHook(pluginFile, Callback(this, "activate")),
        DeactivationHook(pluginFile, Callback(this, "deactivate")),
        Action("plugins_loaded", Callback(this, "load_textdomain")),
        Action("init", Callback(this, "init")),
        Action("admin_init", Callback(this, "admin_init")),
        Action("wp", Callback(this, "late_init"))]
    {
      site.RegisterActivationHook(pluginFile, Callback(this, "activate"));
      site.RegisterDeactivationHook(pluginFile, Callback(this, "deactivate"));
      settings := new Settings(name, version);
      site.AddAction("plugins_loaded", Callback(this, "load_textdomain"));
      site.AddAction("init", Callback(this, "init"));
      site.AddAction("admin_init", Callback(this, "admin_init"));
      site.AddAction("wp", Callback(this, "late_init"));
    }

    /** `activate()`: installs each default that reads back as `false`; the
        new table is `ActivatedTable` of the old one. */
    method Activate(site: Site)
      modifies site`options
      ensures site.options == ActivatedTable(old(site.options))
    {
      ghost var t0 := site.options;
      var current := site.GetOption(CapacityKey);
      if current == False {
        site.UpdateOption(CapacityKey, DefaultCapacity);
      }
      ghost var t1 := site.options;
      assert t1 == SetIfAbsent(t0, CapacityKey, DefaultCapacity);
      current := site.GetOption(DateFormatKey);
      if current == False {
        site.UpdateOption(DateFormatKey, DefaultDateFormat);
      }
      ghost var t2 := site.options;
      assert t2 == SetIfAbsent(t1, DateFormatKey, DefaultDateFormat);
      current := site.GetOption(BadgeKey);
      if current == False {
        site.UpdateOption(BadgeKey, DefaultBadge);
      }
      ActivationSteps(t0);
    }

    /** `deactivate()`: deletes and resets no option. */
    method Deactivate(site: Site)
      ensures site.options == old(site.options)
      ensures site.registry == old(site.registry)
    {
    }

    /** `get_settings()`: the controller `run()` created; `null` stands for
        the type error PHP raises when `run()` has not been called. */
    method GetSettings() returns (s: Settings?)
      requires Valid()
      ensures s == settings
      ensures s != null ==> s.name == name && s.version == version
    {
      s := settings;
    }

    /** `get_admin_hooks()`: built from this plugin's name and version on the
        first call, the same object on every later call. */
    method GetAdminHooks() returns (h: AdminHooks)
      requires Valid()
      modifies this`adminHooks
      ensures Valid()
      ensures h.name == name && h.version == version
      ensures old(adminHooks) != null ==> h == old(adminHooks)
      ensures old(adminHooks) == null ==> fresh(h) && h.name == name && h.version == version
      ensures adminHooks == h
    {
      if adminHooks == null {
        adminHooks := new AdminHooks(name, version);
      }
      h := adminHooks;
    }

    /** `get_public_hooks()`: built from this plugin's name and version on the
        first call, the same object on every later call. */
    method GetPublicHooks() returns (h: PublicHooks)
      requires Valid()
      modifies this`publicHooks
      ensures Valid()
      ensures h.name == name && h.version == version
      ensures old(publicHooks) != null ==> h == old(publicHooks)
      ensures old(publicHooks) == null ==> fresh(h) && h.name == name && h.version == version
      ensures publicHooks == h
    {
      if publicHooks == null {
        publicHooks := new PublicHooks(name, version);
      }
      h := publicHooks;
    }

    /** `init()`: outside the admin area, registers the public hook manager's
        `enqueue_assets` for `wp_enqueue_scripts`; inside it, does nothing. */
    method Init(site: Site)
      requires Valid()
      modifies this`publicHooks, site`registry
      ensures Valid()
      ensures site.inAdmin ==> publicHooks == old(publicHooks) && site.registry == old(site.registry)
      ensures !site.inAdmin ==>
                publicHooks != null &&
                (old(publicHooks) != null ==> publicHooks == old(publicHooks)) &&
                publicHooks.name == name && publicHooks.version == version &&
                (old(publicHooks) == null ==> fresh(publicHooks)) &&
                site.registry == old(site.registry) +
                                 [Action("wp_enqueue_scripts", Callback(publicHooks, "enqueue_assets"))]
    {
      if !site.inAdmin {
        var hooks := GetPublicHooks();
        site.AddAction("wp_enqueue_scripts", Callback(hooks, "enqueue_assets"));
      }
    }

    /** `admin_init()`: always registers the admin hook manager's
        `enqueue_assets` for `admin_enqueue_scripts`. */
    method AdminInit(site: Site)
      requires Valid()
      modifies this`adminHooks, site`registry
      ensures Valid()
      ensures adminHooks != null
      ensures adminHooks.name == name && adminHooks.version == version
      ensures old(adminHooks) != null ==> adminHooks == old(adminHooks)
      ensures old(adminHooks) == null ==> fresh(adminHooks)
      ensures site.registry == old(site.registry) +
                               [Action("admin_enqueue_scripts", Callback(adminHooks, "enqueue_assets"))]
    {
      var hooks := GetAdminHooks();
      site.AddAction("admin_enqueue_scripts", Callback(hooks, "enqueue_assets"));
    }
  }

  /** The static state of class `Plugin`: the slot `self::$instance`. */
  class PluginStatics {
    var instance: Plugin?

    /** `self::$instance` is private and only ever assigned `new self(...)`,
        so whatever it holds is a well-formed plugin. */
    predicate Valid()
      reads this, instance
    {
      instance != null ==> instance.Valid()
    }

    /** At load time the slot is empty. */
    constructor ()
      ensures instance == null
      ensures Valid()
    {
      instance := null;
    }

    /** `Plugin::get_instance(name, version)`: the first call builds the
        instance from its arguments; every later call returns that same
        instance and ignores its arguments. */
    method GetInstance(name: string, version: string) returns (p: Plugin)
      requires Valid()
      modifies this`instance
      ensures Valid() && p.Valid()
      ensures old(instance) == null ==>
                fresh(p) && p.name == name && p.version == version &&
                p.adminHooks == null && p.publicHooks == null && p.settings == null &&
                p.Valid()
      ensures old(instance) != null ==> p == old(instance)
      ensures instance == p
    {
      if instance == null {
        instance := new Plugin(name, version);
      }
      p := instance;
    }
  }
}
