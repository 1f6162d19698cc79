/**
  The part of the WordPress host that the plugin talks to: the option store
  (`get_option` / `update_option`), the hook registry (`add_action`,
  `register_activation_hook`, `register_deactivation_hook`) and the
  `is_admin()` query. Everything else the host does is outside this model.
 */
module Host {

  /** A PHP scalar as it reads back from the option store. `False` is PHP's
      `false`, which is also what `get_option` answers for a missing key. */
  datatype Value = False | True | Int(i: int) | Str(s: string)

  /** The host's persistent key-value option table. */
  type OptionTable = map<string, Value>

  /** `get_option(key)` with its default: a missing key reads as `false`. */
  function Lookup(t: OptionTable, key: string): (v: Value)
    ensures key !in t ==> v == False
    ensures key in t ==> v == t[key]
    ensures v != False ==> key in t && t[key] == v
  {
    if key in t then t[key] else False
  }

  /** The plugin's test `false === get_option(key)`: true for a missing key
      and equally for a key whose stored value is literally `false`. */
  predicate Unset(t: OptionTable, key: string)
  {
    Lookup(t, key) == False
  }

  /** A PHP callable `array($object, 'method')`. */
  datatype Callback = Callback(target: object, methodName: string)

  /** One entry of the host's hook registry. */
  datatype Registration =
    | Action(hook: string, callback: Callback)
    | ActivationHook(file: string, callback: Callback)
    | DeactivationHook(file: string, callback: Callback)

  /** The running WordPress site as the plugin sees it. */
  class Site {
    var options: OptionTable
    var registry: seq<Registration>
    /** What `is_admin()` answers during this request. */
    const inAdmin: bool

    constructor (options: OptionTable, inAdmin: bool)
      ensures this.options == options && this.inAdmin == inAdmin
      ensures registry == []
    {
      this.options := options;
      this.inAdmin := inAdmin;
      registry := [];
    }

    /** `get_option(key)`: the stored value, or `false` when there is none. */
    method GetOption(key: string) returns (v: Value)
      ensures v == Lookup(options, key)
      ensures v == False <==> Unset(options, key)
    {
      v := Lookup(options, key);
    }

    /** `update_option(key, v)`: the key holds `v` afterwards, nothing else changes. */
    method UpdateOption(key: string, v: Value)
      modifies this`options
      ensures options == old(options)[key := v]
    {
      options := options[key := v];
    }

    /** `add_action(hook, callback)`: appends one registration. */
    method AddAction(hook: string, callback: Callback)
      modifies this`registry
      ensures registry == old(registry) + [Action(hook, callback)]
    {
      registry := registry + [Action(hook, callback)];
    }

    /** `register_activation_hook(file, callback)`: appends one registration. */
    method RegisterActivationHook(file: string, callback: Callback)
      modifies this`registry
      ensures registry == old(registry) + [ActivationHook(file, callback)]
    {
      registry := registry + [ActivationHook(file, callback)];
    }

    /** `register_deactivation_hook(file, callback)`: appends one registration. */
    method RegisterDeactivationHook(file: string, callback: Callback)
      modifies this`registry
      ensures registry == old(registry) + [DeactivationHook(file, callback)]
    {
      registry := registry + [DeactivationHook(file, callback)];
    }
  }
}
