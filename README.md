# Example Plugin: lifecycle, option defaults and autoload check

This project models the two pieces of logic in the Example Plugin for
WordPress that can be stated on their own. The host platform is abstracted
into a small `Site` object.

- **The plugin object** (`ExamplePlugin\Plugin`, module `ExamplePlugin`).
  The plugin is a process-wide singleton. The static slot `self::$instance`
  is modelled as class `PluginStatics`. `run()` appends the plugin's
  callbacks to the host's hook registry. `activate()` installs three default
  options when they are absent. `deactivate()` leaves the options alone.
  `get_admin_hooks()` and `get_public_hooks()` build their sub-component once
  and return it from then on. `init()` and `admin_init()` register the
  sub-components' asset callbacks.
- **The host** (module `Host`). The option store is a `map<string, Value>`.
  `get_option` reads a missing key as PHP `false`. The plugin tests
  `false === get_option(key)`, so a key whose stored value is literally
  `false` also counts as absent and is overwritten (predicate `Unset`). The
  hook registry is a sequence of registrations that is only ever appended to.
  Each registration names its hook and a callback `(object, method name)`.
  `is_admin()` is a constant of the request.
- **The autoload verification script** (`test-autoload.php`, module
  `AutoloadTest`). Whether the autoloader file exists and which classes
  `class_exists` finds are inputs. The script is a loop over the fixed list
  of seven classes. Its output is a sequence with one element per `echo`.

What activation does to the table is given by a reference function,
`ActivatedTable`: every default key that reads back as `false` takes its
default, and every other entry is kept. `Plugin.Activate` runs the source's
three guarded updates through the host and is proved to produce
`ActivatedTable` of the old table. Lemmas then prove the properties of
`ActivatedTable`: defaults are installed, set values are kept, other keys are
untouched, and activation is idempotent.

The code registers its callbacks in a fixed order, so the registry is an
ordered sequence.

Class `Plugin` carries an invariant `Valid()`. Each of its three private
fields (admin hooks, public hooks, settings) is either null or an object
built from the plugin's own name and version. In the source only `run()` and
the two lazy getters assign these fields, so the invariant holds from
construction on.

## Model

| member | source | states |
|---|---|---|
| `Host.Lookup` | includes/class-plugin.php:108 | `get_option` reads a stored key back as its stored value and a missing key as `false`; any non-`false` answer is the stored value |
| `Host.Site.GetOption` | includes/class-plugin.php:108 | the answer is what `Lookup` gives for the table, and it is `false` exactly when the key is unset (missing or stored as `false`) |
| `Host.Site.UpdateOption` | includes/class-plugin.php:109 | the key holds the new value; no other entry of the table changes |
| `Host.Site.AddAction` | includes/class-plugin.php:91-95 | `add_action` appends exactly one registration to the registry |
| `Host.Site.RegisterActivationHook` | includes/class-plugin.php:84 | appends exactly one activation registration |
| `Host.Site.RegisterDeactivationHook` | includes/class-plugin.php:85 | appends exactly one deactivation registration |
| `ExamplePlugin.ActivatedTable` | includes/class-plugin.php:107-118 | the reference meaning of `activate()` on the table: every default key ends present and not `false`, and every key that was not unset keeps its value |
| `ExamplePlugin.SetIfAbsent` | includes/class-plugin.php:108-110 | one guarded update: the key set gains only `key`; `key` takes the new value exactly when it was unset and keeps its old value otherwise; every other key keeps its value |
| `ExamplePlugin.ActivationSteps` | includes/class-plugin.php:108-118 | the three guarded updates, in source order, produce exactly the reference table `ActivatedTable` |
| `ExamplePlugin.ActivatedDefaultKey` | includes/class-plugin.php:108-118 | after activation each default key is present and not `false`; it holds its default when it read back as `false` before, and its old value otherwise |
| `ExamplePlugin.ActivationPreservesSetValues` | includes/class-plugin.php:108-118 | a key whose value is not `false` keeps that value |
| `ExamplePlugin.ActivationLeavesOtherKeys` | includes/class-plugin.php:108-118 | a key other than the three defaults is present after activation exactly when it was before, with the same value |
| `ExamplePlugin.ActivationKeys` | includes/class-plugin.php:103-124 | activation deletes no key and adds only the three default keys |
| `ExamplePlugin.ActivationOnFreshInstall` | includes/class-plugin.php:109-117 | an empty table becomes exactly capacity=50, date_format="Y-m-d", show_virtual_badge="true" |
| `ExamplePlugin.CustomisedCapacitySurvives` | includes/class-plugin.php:108-110 | a capacity already customised to 100 is still 100 after activation |
| `ExamplePlugin.ActivationIdempotent` | includes/class-plugin.php:103-124 | activating twice gives the same table as activating once |
| `ExamplePlugin.RepeatedActivation` | includes/class-plugin.php:103-124 | any number n >= 1 of activations in a row gives the table of a single activation |
| `ExamplePlugin.AdminHooks.constructor` | includes/class-admin-hooks.php:21 | the admin hook manager holds the name and version it was built with |
| `ExamplePlugin.PublicHooks.constructor` | includes/class-public-hooks.php:21 | the public hook manager holds the name and version it was built with |
| `ExamplePlugin.Settings.constructor` | includes/class-settings.php:22 | the settings controller holds the name and version it was built with |
| `ExamplePlugin.Plugin.Valid` | includes/class-plugin.php:36-50 | the invariant of the private fields: admin hooks, public hooks and settings are each null or carry the plugin's own name and version |
| `ExamplePlugin.Plugin.constructor` | includes/class-plugin.php:58-60 | a new plugin holds its name and version, has no admin hooks, public hooks or settings yet, and satisfies `Valid()` |
| `ExamplePlugin.Plugin.Run` | includes/class-plugin.php:82-96 | creates a fresh settings controller with the plugin's name and version, keeps `Valid()`, and appends exactly the six registrations in source order: activation, deactivation, `plugins_loaded`, `init`, `admin_init`, `wp`; the option table is untouched |
| `ExamplePlugin.Plugin.Activate` | includes/class-plugin.php:103-124 | the new option table is `ActivatedTable` of the old one; the registry is untouched |
| `ExamplePlugin.Plugin.Deactivate` | includes/class-plugin.php:131-142 | the option table and the registry are exactly as before |
| `ExamplePlugin.Plugin.GetSettings` | includes/class-plugin.php:156-158 | returns the controller that `run()` stored; when there is one, it carries the plugin's name and version |
| `ExamplePlugin.Plugin.GetAdminHooks` | includes/class-plugin.php:165-170 | the first call builds a fresh manager from the plugin's name and version; later calls return that same object; either way the result carries the plugin's name and version and `Valid()` is kept; the public hooks field is untouched |
| `ExamplePlugin.Plugin.GetPublicHooks` | includes/class-plugin.php:177-182 | the first call builds a fresh manager from the plugin's name and version; later calls return that same object; either way the result carries the plugin's name and version and `Valid()` is kept; the admin hooks field is untouched |
| `ExamplePlugin.Plugin.Init` | includes/class-plugin.php:192-199 | in admin, nothing changes; otherwise it appends exactly one `wp_enqueue_scripts` registration whose callback is the cached public hook manager, which carries the plugin's name and version; `Valid()` is kept |
| `ExamplePlugin.Plugin.AdminInit` | includes/class-plugin.php:209-213 | always appends exactly one `admin_enqueue_scripts` registration whose callback is the cached admin hook manager, which carries the plugin's name and version; `Valid()` is kept |
| `ExamplePlugin.PluginStatics.Valid` | includes/class-plugin.php:29 | the invariant of the private slot `self::$instance`: it is null or holds a plugin that satisfies `Plugin.Valid` |
| `ExamplePlugin.PluginStatics.constructor` | includes/class-plugin.php:29 | the instance slot starts empty, which satisfies the slot's invariant |
| `ExamplePlugin.PluginStatics.GetInstance` | includes/class-plugin.php:69-75 | the first call builds a fresh instance from its arguments; every later call returns that same instance whatever its arguments; the slot's invariant is kept, so the returned plugin always satisfies `Plugin.Valid` and can be run |
| `AutoloadTest.ClassesToTest` | test-autoload.php:22-30 | the checked list has exactly seven entries with pairwise distinct class names |
| `AutoloadTest.AutoloadPath` | test-autoload.php:10 | the autoloader path starts with the script's directory and ends in `/vendor/autoload.php` |
| `AutoloadTest.MissingAutoloaderLines` | test-autoload.php:12-15 | the error output is two lines; the first opens with the cross and ends with the autoloader path |
| `AutoloadTest.Summary` | test-autoload.php:45-56 | the summary is seven lines opening with the check mark when all classes passed, and one line opening with the cross otherwise |
| `AutoloadTest.ResultLine` | test-autoload.php:35-40 | a result line opens with the check mark exactly when the class was found and with the cross otherwise; it names the class's label; it ends in " - NOT FOUND" exactly when the class was not found |
| `AutoloadTest.RunAutoloadTest` | test-autoload.php:10-57 | a missing autoloader gives the error lines and exit code 1, before any class is checked; otherwise the output is the header, then exactly one result line per listed class in list order, a blank line and the summary; the exit code is 0 exactly when every listed class exists, and 1 otherwise |

## Left out

- `flush_rewrite_rules()` in `activate()` and `deactivate()` is a host side effect on the routing cache. It is not modelled.
- The `WP_DEBUG` logging through `error_log` in `activate()` and `deactivate()` is not modelled. It writes only to the process log.
- `load_textdomain()` only calls the host's `load_plugin_textdomain`. It is not modelled; `run()` still registers it.
- `late_init()` has an empty body. It is not modelled; `run()` still registers it.
- `AdminHooks::enqueue_assets` and `PublicHooks::enqueue_assets` only call `error_log`. They are not modelled; their registration is.
- `Settings::render_settings_page` is UI rendering around a host capability check and a template include. It is not modelled.
- `Settings::save_settings` and `Settings::get_default_value` are commented-out stubs in the source. They are not modelled, and no validation or defaulting rule is invented for them.
- The bootstrap file `example-plugin.php` (dependency check, constants, admin notice, `require_once`) is host I/O. It is not modelled.
- The framework base classes `Component` and `SettingsCore` are not part of this model. `Component` appears only as the name and version each sub-component holds.
- The Composer autoloader and PHP's `class_exists` are replaced by inputs: a flag for whether the autoloader file exists, and the set of loadable class names. The `require` of the autoloader is not modelled.
- The host decides when hooks fire and how often. Neither is modelled; the model keeps only the registry of registrations.
- `register_activation_hook` binds a callback to the plugin file through `plugin_basename`. The model records the file path as given.
- Races between requests on the option store are not modelled.
- Host.Site.AddAction: WordPress keys each hook's callbacks by priority and callback identity, so registering the same `(object, method)` twice on one hook leaves one entry. The model appends a second entry instead. No path in the plugin registers the same callback twice in one request.
- ExamplePlugin.Plugin.Run: "exactly the six registrations" assumes the constructor of the framework class `SettingsCore` registers no hooks of its own. That class is not part of this model.
- ExamplePlugin.Plugin.GetSettings: PHP raises a type error when `get_settings()` runs before `run()`, because the stored value is then `null`. The model returns `null` in that case and does not model the error. A non-null result is promised to carry the plugin's name and version.
- Host.Site.UpdateOption: WordPress skips the write when the new value equals the old one. The resulting table is the same either way, so the model always writes.
