/**
 * The source registry (syng/sources/__init__.py): from the configuration of
 * each named source, build the sources whose names are registered.
 */
module Registry {

  /**
   * `configure_sources`: a loop over the configured names that builds, for
   * each registered one, a source with that name's constructor from that
   * name's own configuration, and silently drops unregistered names.
   * Constructors are inputs; `C` is a configuration, `S` a built source.
   */
  method ConfigureSources<C, S>(configs: map<string, C>, available: map<string, C -> S>)
    returns (configured: map<string, S>)
    ensures configured.Keys == configs.Keys * available.Keys
    ensures forall name :: name in configured ==> configured[name] == available[name](configs[name])
  {
    configured := map[];
    var remaining := configs.Keys;
    while remaining != {}
      invariant remaining <= configs.Keys
      invariant configured.Keys == (configs.Keys - remaining) * available.Keys
      invariant forall name :: name in configured ==>
        name in configs && name in available && configured[name] == available[name](configs[name])
      decreases |remaining|
    {
      var name :| name in remaining;
      if name in available {
        configured := configured[name := available[name](configs[name])];
      }
      remaining := remaining - {name};
    }
  }
}
