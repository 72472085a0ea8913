/**
 * The fluent property mapping that binds one record member to one owned
 * column definition. Int32PropertyMapping and UInt16PropertyMapping are the
 * same class over different column types; here they are one generic class
 * PropertyMapping<T>, instantiated in Int32Mappings and UInt16Mappings.
 */
module PropertyMappings {
  import opened Options
  import opened ColumnDefinitions

  /** A C# int: the type of the physical and logical indices. */
  newtype int32 = x: int | -0x8000_0000 <= x < 0x8000_0000

  /** The reflective accessor of the bound member (IMemberAccessor); opaque here. */
  type MemberAccessor
  /** A custom read hook a mapping may offer in place of the column's parsing; opaque here. */
  type ReaderHook
  /** A custom write hook a mapping may offer in place of the column's formatting; opaque here. */
  type WriterHook

  class PropertyMapping<T> {
    /** The owned column; the reference itself never changes. */
    const column: Column<T>
    /** The bound member, fixed at construction. */
    const Member: MemberAccessor
    /** Position among all physical columns of a raw record, fixed at construction. */
    const PhysicalIndex: int32
    /** Position among the mapped members of the typed record, fixed at construction. */
    const LogicalIndex: int32

    constructor (column: Column<T>, member: MemberAccessor, physicalIndex: int32, logicalIndex: int32)
      ensures this.column == column && ColumnDefinition() == column
      ensures Member == member
      ensures PhysicalIndex == physicalIndex && LogicalIndex == logicalIndex
    {
      this.column := column;
      Member := member;
      PhysicalIndex := physicalIndex;
      LogicalIndex := logicalIndex;
    }

    /** The column definition the pipeline uses: the very object the setters write. */
    function ColumnDefinition(): (c: Column<T>)
      ensures c == column
    {
      column
    }

    /** No custom reader: the column's own parsing applies. */
    function Reader(): (h: Option<ReaderHook>)
      ensures h.None?
    {
      None
    }

    /** No custom writer: the column's own formatting applies. */
    function Writer(): (h: Option<WriterHook>)
      ensures h.None?
    {
      None
    }

    method ColumnName(name: string) returns (r: PropertyMapping<T>)
      modifies column
      ensures r == this
      ensures column.Config() == Apply(old(column.Config()), SetColumnName(name))
    {
      column.columnName := name;
      r := this;
    }

    method FormatProvider(provider: Option<FormatProvider>) returns (r: PropertyMapping<T>)
      modifies column
      ensures r == this
      ensures column.Config() == Apply(old(column.Config()), SetFormatProvider(provider))
    {
      column.formatProvider := provider;
      r := this;
    }

    method NumberStyles(styles: NumberStyles) returns (r: PropertyMapping<T>)
      modifies column
      ensures r == this
      ensures column.Config() == Apply(old(column.Config()), SetNumberStyles(styles))
    {
      column.numberStyles := styles;
      r := this;
    }

    method OutputFormat(format: Option<string>) returns (r: PropertyMapping<T>)
      modifies column
      ensures r == this
      ensures column.Config() == Apply(old(column.Config()), SetOutputFormat(format))
    {
      column.outputFormat := format;
      r := this;
    }

    /** None stands for a null argument, stored as given. */
    method NullFormatter(formatter: Option<NullFormatter>) returns (r: PropertyMapping<T>)
      modifies column
      ensures r == this
      ensures column.Config() == Apply(old(column.Config()), SetNullFormatter(formatter))
    {
      column.nullFormatter := formatter;
      r := this;
    }

    /** None stands for a null argument, stored as given. */
    method DefaultValue(defaultValue: Option<DefaultValue>) returns (r: PropertyMapping<T>)
      modifies column
      ensures r == this
      ensures column.Config() == Apply(old(column.Config()), SetDefaultValue(defaultValue))
    {
      column.defaultValue := defaultValue;
      r := this;
    }

    method Preprocessor(preprocessor: Option<Preprocessor>) returns (r: PropertyMapping<T>)
      modifies column
      ensures r == this
      ensures column.Config() == Apply(old(column.Config()), SetPreprocessor(preprocessor))
    {
      column.preprocessor := preprocessor;
      r := this;
    }
  }

  /**
   * The chained use the fluent surface exists for: every call goes to the
   * mapping the previous call returned, and all of them configure one column.
   */
  method ConfigureAll<T>(m: PropertyMapping<T>, name: string, provider: Option<FormatProvider>,
                         styles: NumberStyles, format: Option<string>,
                         formatter: Option<NullFormatter>, default: Option<DefaultValue>,
                         preprocessor: Option<Preprocessor>)
    returns (r: PropertyMapping<T>)
    modifies m.column
    ensures r == m
    ensures m.column.Config() == ColumnConfig(name, provider, styles, format, formatter, default, preprocessor)
    ensures m.column.Config() == ApplyAll(old(m.column.Config()),
      [SetColumnName(name), SetFormatProvider(provider), SetNumberStyles(styles), SetOutputFormat(format),
       SetNullFormatter(formatter), SetDefaultValue(default), SetPreprocessor(preprocessor)])
  {
    ghost var start, done := m.column.Config(), [];
    r := m.ColumnName(name);
    ApplyAllSnoc(start, done, SetColumnName(name));
    done := done + [SetColumnName(name)];
    r := r.FormatProvider(provider);
    ApplyAllSnoc(start, done, SetFormatProvider(provider));
    done := done + [SetFormatProvider(provider)];
    r := r.NumberStyles(styles);
    ApplyAllSnoc(start, done, SetNumberStyles(styles));
    done := done + [SetNumberStyles(styles)];
    r := r.OutputFormat(format);
    ApplyAllSnoc(start, done, SetOutputFormat(format));
    done := done + [SetOutputFormat(format)];
    r := r.NullFormatter(formatter);
    ApplyAllSnoc(start, done, SetNullFormatter(formatter));
    done := done + [SetNullFormatter(formatter)];
    r := r.DefaultValue(default);
    ApplyAllSnoc(start, done, SetDefaultValue(default));
    done := done + [SetDefaultValue(default)];
    r := r.Preprocessor(preprocessor);
    ApplyAllSnoc(start, done, SetPreprocessor(preprocessor));
    done := done + [SetPreprocessor(preprocessor)];
    assert done == [SetColumnName(name), SetFormatProvider(provider), SetNumberStyles(styles),
                    SetOutputFormat(format), SetNullFormatter(formatter), SetDefaultValue(default),
                    SetPreprocessor(preprocessor)];
  }

  /** Renaming twice through the returned mapping leaves only the second name. */
  method RenameTwice<T>(m: PropertyMapping<T>, first: string, second: string)
    returns (r: PropertyMapping<T>)
    modifies m.column
    ensures r == m && r.ColumnDefinition() == m.column
    ensures m.column.Config() == Apply(old(m.column.Config()), SetColumnName(second))
  {
    r := m.ColumnName(first);
    r := r.ColumnName(second);
    LastWriteWins(old(m.column.Config()), SetColumnName(first), SetColumnName(second));
  }

  /**
   * A setter changes only its own mapping's column: another mapping over a
   * different column keeps its whole configuration.
   */
  method RenameOne<T, U>(m: PropertyMapping<T>, other: PropertyMapping<U>, name: string)
    returns (r: PropertyMapping<T>)
    requires m.column as object != other.column as object
    modifies m.column
    ensures r == m && r.column.columnName == name
    ensures other.column.Config() == old(other.column.Config())
  {
    r := m.ColumnName(name);
  }
}
