/** Collaborators whose exact behaviour lies outside this model: Python's `str(float)`
    (shortest round-trip decimal), PyYAML's `yaml.dump` and `yaml.safe_load`. They are
    passed in as function values, so every property proved below holds for any choice. */
module Foreign {
  import opened Wrappers

  /** The scalar values the renderers put in frontmatter. */
  datatype YamlScalar = YInt(i: int) | YStr(s: string)

  type Frontmatter = map<string, YamlScalar>

  datatype Collaborators = Collaborators(
    /** `str(x)` / f-string formatting of a Python float */
    showReal: real -> string,
    /** `yaml.dump(data, allow_unicode=True, default_flow_style=False)` */
    yamlDump: Frontmatter -> string,
    /** `yaml.safe_load(text) or {}`; `None` stands for a raised `yaml.YAMLError` */
    yamlLoad: string -> Option<Frontmatter>
  )
}
