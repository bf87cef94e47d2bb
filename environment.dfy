/**
 * `apply` from `run.js`: the child's environment is the ambient environment with the
 * caller's overrides written over it key by key.
 */
module Environment {

  /**
   * The environment the child sees: every override, and every ambient variable that is
   * not overridden; no variable is removed.
   */
  function Overlay(overrides: map<string, string>, ambient: map<string, string>): (r: map<string, string>)
    ensures r.Keys == ambient.Keys + overrides.Keys
    ensures forall k :: k in overrides ==> r[k] == overrides[k]
    ensures forall k :: k in ambient && k !in overrides ==> r[k] == ambient[k]
  {
    ambient + overrides
  }

  /**
   * `apply(properties, target)`: writes each key of `properties` into `target` and returns
   * the updated `target`; `properties` itself is left as it was.
   */
  method Apply(properties: map<string, string>, target: map<string, string>) returns (r: map<string, string>)
    ensures r == Overlay(properties, target)
  {
    r := target;
    var pending := properties.Keys;
    while pending != {}
      invariant pending <= properties.Keys
      invariant r == target + (properties - pending)
      decreases |pending|
    {
      var key :| key in pending;
      assert target + (properties - (pending - {key})) == r[key := properties[key]];
      r := r[key := properties[key]];
      pending := pending - {key};
    }
    assert properties - {} == properties;
  }
}
