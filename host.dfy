/** What the visualization reads from its host: the configuration mapping,
    and the helper functions it calls without defining them.  The helpers
    are parameters of the model; apart from three fixed values (an absent
    property escapes to the empty string, `|| true` reads as true and
    `|| 1` as 1), nothing is assumed about what they compute. */
module Host {

  datatype Option<T> = None | Some(value: T)

  /** `vizUtils.escapeHtml`, `normalizeBoolean` (both the one of
      `vizUtils` and the one of `Splunk.util`), the global `parseFloat` and
      `parseInt`, and the conversion of a number to text that `+` performs. */
  datatype Helpers = Helpers(
    escapeHtml: string -> string,
    normalizeBoolean: string -> bool,
    parseFloat: string -> real,
    parseInt: string -> int,
    numberToString: real -> string)

  /** The flat configuration mapping and the namespace that prefixes the
      visualization's own property names. */
  datatype Config = Config(props: map<string, string>, namespace: string)

  /** `_getEscapedProperty`: the escaped value of a namespaced property;
      an absent property escapes to the empty string. */
  function EscapedProperty(h: Helpers, cfg: Config, name: string): (v: string)
    ensures cfg.namespace + name !in cfg.props ==> v == ""
  {
    var key := cfg.namespace + name;
    if key in cfg.props then h.escapeHtml(cfg.props[key]) else ""
  }

  /** JavaScript's `v || fallback` on a string: only the empty string is falsy. */
  function Or(v: string, fallback: string): (r: string)
    ensures r == v || r == fallback
    ensures r == "" ==> fallback == ""
  {
    if v == "" then fallback else v
  }

  /** `normalizeBoolean(property || true)`: an absent or empty property is
      the boolean `true`, which normalizes to true. */
  function BooleanProperty(h: Helpers, cfg: Config, name: string): (b: bool)
    ensures EscapedProperty(h, cfg, name) == "" ==> b
  {
    var v := EscapedProperty(h, cfg, name);
    if v == "" then true else h.normalizeBoolean(v)
  }

  /** `parseInt(property || 1)`: the line thickness setting. */
  function LineThickness(h: Helpers, cfg: Config): (n: int)
    ensures EscapedProperty(h, cfg, "lineThickness") == "" ==> n == 1
  {
    var v := EscapedProperty(h, cfg, "lineThickness");
    if v == "" then 1 else h.parseInt(v)
  }
}
