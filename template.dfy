/** The template pipeline's value types, as far as the handlers use them:
    the property set that feeds substitution, and the source sets that pair a
    file filter with processors. Filters and processors are tags: how a glob
    matches and what a processor rewrites is not part of this model. */
module Template {
  import opened Common

  /** A property value: the handlers store strings and paths. */
  datatype Value = Text(text: string) | PathValue(path: Path)

  /** A built, immutable property set. */
  datatype Properties = Properties(entries: map<string, Value>) {

    /** `Properties.get(key)`: the value bound to `key`, or absent. */
    function Get(key: string): (r: Option<Value>)
      ensures r.Some? <==> key in entries
      ensures r.Some? ==> r.value == entries[key]
    {
      if key in entries then Some(entries[key]) else None
    }
  }

  /** `Properties.Builder`: bindings accumulated by chained `with` calls. */
  datatype Builder = Builder(entries: map<string, Value>) {

    /** `with(key, value)`: binds `key`, replacing an earlier binding of it. */
    function With(key: string, value: Value): (r: Builder)
      ensures r.entries.Keys == entries.Keys + {key}
      ensures r.entries[key] == value
      ensures forall k :: k in entries && k != key ==> r.entries[k] == entries[k]
    {
      Builder(entries[key := value])
    }

    /** `build()`: the property set holding exactly the accumulated bindings. */
    function Build(): (p: Properties)
      ensures p.entries == entries
    {
      Properties(entries)
    }
  }

  /** `Properties.builder()`: a builder without bindings. */
  const EmptyBuilder: Builder := Builder(map[])

  /** A template filter, known here only by its glob pattern. */
  datatype SourceTemplateFilter = SourceTemplateFilter(pattern: string)

  /** The processor kinds the Maven project handler registers. */
  datatype Processor = JavaPackageProcessor | MavenProcessor

  /** A source set: the filter set by `setIncludes` and the processors set by
      `setProcessors`. */
  datatype SourceSet = SourceSet(includes: Option<SourceTemplateFilter>, processors: seq<Processor>)

  /** `new SourceSet()`: no filter and no processors yet. */
  const NewSourceSet: SourceSet := SourceSet(None, [])
}
