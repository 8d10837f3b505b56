/**
 * The options of `list` and their merge with the defaults,
 * `{ ...defaultOptions, ...options }`.
 *
 * An option the caller leaves out keeps its default. One the caller sets to
 * `undefined` explicitly overrides the default with `undefined`, because the
 * spread copies every own property: such a flag then reads as false, and such a
 * mode compares unequal to `Mode.LIST`, so the traversal behaves as in TREE
 * mode.
 */
module Options {

  datatype Mode = LIST | TREE

  /** One optional property of the options object. */
  datatype Field<T> = Absent | Undefined | Given(value: T)

  datatype OptionsSearch = OptionsSearch(
    mode: Field<Mode>,
    recursive: Field<bool>,
    stats: Field<bool>,
    ignoreFolders: Field<bool>,
    extensions: Field<bool>,
    exclude: Field<seq<string>>)

  const DefaultOptions := OptionsSearch(Given(LIST), Given(true), Given(false), Given(true), Given(false), Given([]))

  /** The options `{}` that `list` uses when called without any (or with `null`). */
  const NoOptions: OptionsSearch := OptionsSearch(Absent, Absent, Absent, Absent, Absent, Absent)

  /** One property of the spread: the caller's own property wins, whatever its value. */
  function Override<T>(default: Field<T>, given: Field<T>): Field<T>
  {
    if given.Absent? then default else given
  }

  /** `{ ...defaultOptions, ...options }` */
  function Merge(options: OptionsSearch): (r: OptionsSearch)
    ensures !r.mode.Absent? && !r.recursive.Absent? && !r.stats.Absent?
    ensures !r.ignoreFolders.Absent? && !r.extensions.Absent? && !r.exclude.Absent?
    ensures options.mode.Absent? ==> r.mode == DefaultOptions.mode
    ensures !options.mode.Absent? ==> r.mode == options.mode
    ensures options.recursive.Absent? ==> r.recursive == DefaultOptions.recursive
    ensures !options.recursive.Absent? ==> r.recursive == options.recursive
    ensures options.stats.Absent? ==> r.stats == DefaultOptions.stats
    ensures !options.stats.Absent? ==> r.stats == options.stats
    ensures options.ignoreFolders.Absent? ==> r.ignoreFolders == DefaultOptions.ignoreFolders
    ensures !options.ignoreFolders.Absent? ==> r.ignoreFolders == options.ignoreFolders
    ensures options.extensions.Absent? ==> r.extensions == DefaultOptions.extensions
    ensures !options.extensions.Absent? ==> r.extensions == options.extensions
    ensures options.exclude.Absent? ==> r.exclude == DefaultOptions.exclude
    ensures !options.exclude.Absent? ==> r.exclude == options.exclude
  {
    OptionsSearch(
      Override(DefaultOptions.mode, options.mode),
      Override(DefaultOptions.recursive, options.recursive),
      Override(DefaultOptions.stats, options.stats),
      Override(DefaultOptions.ignoreFolders, options.ignoreFolders),
      Override(DefaultOptions.extensions, options.extensions),
      Override(DefaultOptions.exclude, options.exclude))
  }

  /** The recursive calls merge the already merged options again, which changes nothing. */
  lemma MergeIdempotent(options: OptionsSearch)
    ensures Merge(Merge(options)) == Merge(options)
  {
  }

  /** The options as the traversal reads them. */
  datatype Config = Config(
    mode: Mode,
    recursive: bool,
    stats: bool,
    ignoreFolders: bool,
    extensions: bool,
    exclude: seq<string>)

  /** JavaScript truthiness of an optional boolean: `undefined` is false. */
  predicate Truthy(f: Field<bool>)
  {
    f == Given(true)
  }

  /**
   * How the traversal reads merged options: flags by truthiness, the mode by
   * `options.mode == Mode.LIST`, and an undefined exclusion list as the
   * default parameter `[]` of `exclude`. A given value is read as it is; a
   * missing or undefined flag reads as false, a missing or undefined mode as
   * TREE.
   */
  function Effective(options: OptionsSearch): (cfg: Config)
    ensures options.mode.Given? ==> cfg.mode == options.mode.value
    ensures !options.mode.Given? ==> cfg.mode == TREE
    ensures options.recursive.Given? ==> cfg.recursive == options.recursive.value
    ensures !options.recursive.Given? ==> !cfg.recursive
    ensures options.stats.Given? ==> cfg.stats == options.stats.value
    ensures !options.stats.Given? ==> !cfg.stats
    ensures options.ignoreFolders.Given? ==> cfg.ignoreFolders == options.ignoreFolders.value
    ensures !options.ignoreFolders.Given? ==> !cfg.ignoreFolders
    ensures options.extensions.Given? ==> cfg.extensions == options.extensions.value
    ensures !options.extensions.Given? ==> !cfg.extensions
    ensures options.exclude.Given? ==> cfg.exclude == options.exclude.value
    ensures !options.exclude.Given? ==> cfg.exclude == []
  {
    Config(
      if options.mode == Given(LIST) then LIST
      else assert options.mode.Given? ==> options.mode.value != LIST; TREE,
      Truthy(options.recursive),
      Truthy(options.stats),
      Truthy(options.ignoreFolders),
      Truthy(options.extensions),
      if options.exclude.Given? then options.exclude.value else [])
  }

  /** Without options the traversal lists recursively, flat, without stats, folders or extensions, excluding nothing. */
  lemma Defaults()
    ensures Effective(Merge(NoOptions)) == Config(LIST, true, false, true, false, [])
  {
  }

  /** A mode set to `undefined` is read as TREE. */
  lemma UndefinedModeReadsAsTree(options: OptionsSearch)
    requires options.mode == Undefined
    ensures Effective(Merge(options)).mode == TREE
  {
  }
}
