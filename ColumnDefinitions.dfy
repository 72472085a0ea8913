/**
 * The configurable state of a typed column definition (the object a property
 * mapping owns), as far as the property mappings of
 * FlatFiles/TypeMapping/Int32PropertyMapping.cs and
 * FlatFiles/TypeMapping/UInt16PropertyMapping.cs can observe and change it.
 *
 * The column's parsing, formatting and null handling are not part of this
 * model: every attribute is stored exactly as the setter received it.
 */
module ColumnDefinitions {
  import opened Options

  /** .NET culture rules (IFormatProvider); opaque here. */
  type FormatProvider
  /** .NET System.Globalization.NumberStyles, a value type; opaque here. */
  type NumberStyles
  /** Policy deciding which text denotes null (INullFormatter); opaque here. */
  type NullFormatter
  /** Policy supplying a substitute for an unexpected null (IDefaultValue); opaque here. */
  type DefaultValue

  /** A caller-supplied text transform applied before parsing. */
  type Preprocessor = string -> string

  /** The seven attributes a property mapping can configure, as one value. */
  datatype ColumnConfig = ColumnConfig(
    columnName: string,
    formatProvider: Option<FormatProvider>,
    numberStyles: NumberStyles,
    outputFormat: Option<string>,
    nullFormatter: Option<NullFormatter>,
    defaultValue: Option<DefaultValue>,
    preprocessor: Option<Preprocessor>)

  /** Names the attributes of a ColumnConfig. */
  datatype Attribute =
    | NameAttr | ProviderAttr | StylesAttr | OutputFormatAttr
    | NullFormatterAttr | DefaultValueAttr | PreprocessorAttr

  /** One fluent configuration call, with its argument (None stands for a null argument). */
  datatype Setting =
    | SetColumnName(name: string)
    | SetFormatProvider(provider: Option<FormatProvider>)
    | SetNumberStyles(styles: NumberStyles)
    | SetOutputFormat(format: Option<string>)
    | SetNullFormatter(formatter: Option<NullFormatter>)
    | SetDefaultValue(default: Option<DefaultValue>)
    | SetPreprocessor(transform: Option<Preprocessor>)
  {
    /** The attribute this call writes. */
    function Attr(): Attribute {
      match this
      case SetColumnName(_) => NameAttr
      case SetFormatProvider(_) => ProviderAttr
      case SetNumberStyles(_) => StylesAttr
      case SetOutputFormat(_) => OutputFormatAttr
      case SetNullFormatter(_) => NullFormatterAttr
      case SetDefaultValue(_) => DefaultValueAttr
      case SetPreprocessor(_) => PreprocessorAttr
    }
  }

  /** Configuration c holds, in the attribute s writes, exactly the argument of s. */
  ghost predicate Holds(c: ColumnConfig, s: Setting) {
    match s
    case SetColumnName(n) => c.columnName == n
    case SetFormatProvider(p) => c.formatProvider == p
    case SetNumberStyles(st) => c.numberStyles == st
    case SetOutputFormat(f) => c.outputFormat == f
    case SetNullFormatter(nf) => c.nullFormatter == nf
    case SetDefaultValue(d) => c.defaultValue == d
    case SetPreprocessor(pp) => c.preprocessor == pp
  }

  /** Configurations c and d have the same value of attribute a. */
  ghost predicate Agree(c: ColumnConfig, d: ColumnConfig, a: Attribute) {
    match a
    case NameAttr => c.columnName == d.columnName
    case ProviderAttr => c.formatProvider == d.formatProvider
    case StylesAttr => c.numberStyles == d.numberStyles
    case OutputFormatAttr => c.outputFormat == d.outputFormat
    case NullFormatterAttr => c.nullFormatter == d.nullFormatter
    case DefaultValueAttr => c.defaultValue == d.defaultValue
    case PreprocessorAttr => c.preprocessor == d.preprocessor
  }

  /**
   * The effect of one configuration call on the column: the written attribute
   * takes the argument, and every other attribute keeps its value.
   */
  function Apply(c: ColumnConfig, s: Setting): (r: ColumnConfig)
    ensures Holds(r, s)
    ensures forall a: Attribute :: a != s.Attr() ==> Agree(c, r, a)
  {
    match s
    case SetColumnName(n) => c.(columnName := n)
    case SetFormatProvider(p) => c.(formatProvider := p)
    case SetNumberStyles(st) => c.(numberStyles := st)
    case SetOutputFormat(f) => c.(outputFormat := f)
    case SetNullFormatter(nf) => c.(nullFormatter := nf)
    case SetDefaultValue(d) => c.(defaultValue := d)
    case SetPreprocessor(pp) => c.(preprocessor := pp)
  }

  /** The effect of a chain of configuration calls, made from left to right. */
  function ApplyAll(c: ColumnConfig, calls: seq<Setting>): ColumnConfig
    decreases |calls|
  {
    if |calls| == 0 then c
    else Apply(ApplyAll(c, calls[..|calls| - 1]), calls[|calls| - 1])
  }

  /** Making one more call extends the chain by that call. */
  lemma ApplyAllSnoc(c: ColumnConfig, calls: seq<Setting>, s: Setting)
    ensures ApplyAll(c, calls + [s]) == Apply(ApplyAll(c, calls), s)
  {
  }

  /** The last call in calls that writes attribute a, if there is one. */
  function LastSetting(calls: seq<Setting>, a: Attribute): (r: Option<Setting>)
    ensures r.Some? ==> r.value in calls && r.value.Attr() == a
    ensures r.None? ==> forall s :: s in calls ==> s.Attr() != a
    decreases |calls|
  {
    if |calls| == 0 then None
    else if calls[|calls| - 1].Attr() == a then Some(calls[|calls| - 1])
    else
      var front := calls[..|calls| - 1];
      assert calls == front + [calls[|calls| - 1]];
      LastSetting(front, a)
  }

  /** A configuration is determined by the values of its seven attributes. */
  lemma Extensional(c: ColumnConfig, d: ColumnConfig)
    requires forall a: Attribute :: Agree(c, d, a)
    ensures c == d
  {
    assert Agree(c, d, NameAttr) && Agree(c, d, ProviderAttr) && Agree(c, d, StylesAttr);
    assert Agree(c, d, OutputFormatAttr) && Agree(c, d, NullFormatterAttr);
    assert Agree(c, d, DefaultValueAttr) && Agree(c, d, PreprocessorAttr);
  }

  /**
   * Calling the same setter twice keeps only the second argument: the result
   * is the same configuration as calling it once with that argument.
   */
  lemma LastWriteWins(c: ColumnConfig, s: Setting, t: Setting)
    requires s.Attr() == t.Attr()
    ensures Holds(Apply(Apply(c, s), t), t)
    ensures Apply(Apply(c, s), t) == Apply(c, t)
  {
  }

  /** Calls that write different attributes can be made in either order. */
  lemma DistinctSettingsCommute(c: ColumnConfig, s: Setting, t: Setting)
    requires s.Attr() != t.Attr()
    ensures Apply(Apply(c, s), t) == Apply(Apply(c, t), s)
  {
  }

  /**
   * After a chain of calls, each attribute holds the argument of the last call
   * that wrote it, or its original value when no call wrote it.
   */
  lemma {:induction false} ApplyAllLastWins(c: ColumnConfig, calls: seq<Setting>, a: Attribute)
    ensures LastSetting(calls, a).Some? ==> Holds(ApplyAll(c, calls), LastSetting(calls, a).value)
    ensures LastSetting(calls, a).None? ==> Agree(ApplyAll(c, calls), c, a)
    decreases |calls|
  {
    if |calls| > 0 {
      var front, last := calls[..|calls| - 1], calls[|calls| - 1];
      if last.Attr() != a {
        ApplyAllLastWins(c, front, a);
        assert Agree(ApplyAll(c, front), ApplyAll(c, calls), a);
      }
    }
  }

  /**
   * Order and repetition of configuration calls matter only through the last
   * call per attribute: two chains agreeing on those give the same column.
   */
  lemma SameLastSettingsSameConfig(c: ColumnConfig, xs: seq<Setting>, ys: seq<Setting>)
    requires forall a: Attribute :: LastSetting(xs, a) == LastSetting(ys, a)
    ensures ApplyAll(c, xs) == ApplyAll(c, ys)
  {
    var x, y := ApplyAll(c, xs), ApplyAll(c, ys);
    forall a: Attribute ensures Agree(x, y, a) {
      ApplyAllLastWins(c, xs, a);
      ApplyAllLastWins(c, ys, a);
    }
    Extensional(x, y);
  }

  /**
   * The column definition object a property mapping owns. Its value type T
   * (the C# Int32Column or UInt16Column) only tags the column here.
   */
  class Column<T> {
    var columnName: string
    var formatProvider: Option<FormatProvider>
    var numberStyles: NumberStyles
    var outputFormat: Option<string>
    var nullFormatter: Option<NullFormatter>
    var defaultValue: Option<DefaultValue>
    var preprocessor: Option<Preprocessor>

    /** The column's whole configurable state as one value. */
    function Config(): ColumnConfig
      reads this
    {
      ColumnConfig(columnName, formatProvider, numberStyles, outputFormat,
                   nullFormatter, defaultValue, preprocessor)
    }

    /** A column with the given initial configuration. */
    constructor (init: ColumnConfig)
      ensures Config() == init
    {
      columnName := init.columnName;
      formatProvider := init.formatProvider;
      numberStyles := init.numberStyles;
      outputFormat := init.outputFormat;
      nullFormatter := init.nullFormatter;
      defaultValue := init.defaultValue;
      preprocessor := init.preprocessor;
    }
  }
}
