# FlatFiles typed property mappings (Int32 and UInt16)

This project models the fluent configuration layer of the FlatFiles library that binds one
record member to one integer column: `Int32PropertyMapping` and `UInt16PropertyMapping`.
A mapping owns one column definition (`Int32Column` or `UInt16Column`). It also records the
member it binds, that member's physical index (its position among all columns of a raw record)
and its logical index (its position among the mapped members). Seven fluent setters each write
one attribute of the owned column and return the mapping itself, so calls can be chained. Through
`IMemberMapping` the mapping reports its member, both indices and its column definition. It never
offers a custom reader or writer.

The two C# classes are identical apart from the column type. Here they are one generic class:

- `Options.dfy`: `Option`, which stands for a nullable reference argument (None is null).
- `ColumnDefinitions.dfy`: the column's configurable state as a value (`ColumnConfig`). A
  configuration call is a value (`Setting`), and `Apply` and `ApplyAll` give the effect of one
  call and of a chain of calls. The lemmas prove last-write-wins, that calls on different
  attributes commute, and that a chain's result depends only on the last call per attribute.
  The owned column object is `Column<T>`: the seven attributes are mutable fields, and
  `Config()` reads them as one `ColumnConfig`.
- `PropertyMappings.dfy`: the class `PropertyMapping<T>`. It has a `const` reference to its
  column and `const` member and indices (the C# get-only properties), the seven setters with
  `modifies column`, and the `ColumnDefinition`, `Reader` and `Writer` accessors. Three client
  methods show chaining, repeated writes and that two mappings do not affect each other.
- `Int32Mappings.dfy`, `UInt16Mappings.dfy`: the two instances, `PropertyMapping<int32>` over
  `Column<int32>` and `PropertyMapping<uint16>` over `Column<uint16>`. The type argument only
  tags which column class is owned. Each module has a `Create` that wraps the constructor.

Member accessors, format providers, number styles, null formatters and default-value policies
are opaque types. A preprocessor is an optional total `string -> string` function. A C# `int`
index is the `int32` newtype.

## Model

| member | source | states |
|---|---|---|
| `PropertyMappings.PropertyMapping.constructor` | FlatFiles/TypeMapping/Int32PropertyMapping.cs:63-73 | the mapping keeps the given column as its column definition, and the given member, physical index and logical index, unchanged |
| `Int32Mappings.Create` | FlatFiles/TypeMapping/Int32PropertyMapping.cs:67-73 | a new Int32 mapping reports exactly the column, member and indices it was built with, and has no reader or writer hook |
| `UInt16Mappings.Create` | FlatFiles/TypeMapping/UInt16PropertyMapping.cs:67-73 | a new UInt16 mapping reports exactly the column, member and indices it was built with, and has no reader or writer hook |
| `PropertyMappings.PropertyMapping.ColumnName` | FlatFiles/TypeMapping/Int32PropertyMapping.cs:75-79 | returns the receiver, modifies only the owned column, and leaves its name equal to the argument with every other attribute unchanged |
| `PropertyMappings.PropertyMapping.FormatProvider` | FlatFiles/TypeMapping/Int32PropertyMapping.cs:81-85 | returns the receiver, modifies only the owned column, and leaves its format provider equal to the argument (null included) with every other attribute unchanged |
| `PropertyMappings.PropertyMapping.NumberStyles` | FlatFiles/TypeMapping/UInt16PropertyMapping.cs:87-91 | returns the receiver, modifies only the owned column, and leaves its number styles equal to the argument with every other attribute unchanged |
| `PropertyMappings.PropertyMapping.OutputFormat` | FlatFiles/TypeMapping/UInt16PropertyMapping.cs:93-97 | returns the receiver, modifies only the owned column, and leaves its output format equal to the argument (null included) with every other attribute unchanged |
| `PropertyMappings.PropertyMapping.NullFormatter` | FlatFiles/TypeMapping/UInt16PropertyMapping.cs:99-103 | returns the receiver, modifies only the owned column, and stores the formatter as given (null included) with every other attribute unchanged |
| `PropertyMappings.PropertyMapping.DefaultValue` | FlatFiles/TypeMapping/UInt16PropertyMapping.cs:105-109 | returns the receiver, modifies only the owned column, and stores the default-value policy as given (null included) with every other attribute unchanged |
| `PropertyMappings.PropertyMapping.Preprocessor` | FlatFiles/TypeMapping/Int32PropertyMapping.cs:111-115 | returns the receiver, modifies only the owned column, and stores the preprocessor as given (null included) with every other attribute unchanged |
| `PropertyMappings.PropertyMapping.ColumnDefinition` | FlatFiles/TypeMapping/Int32PropertyMapping.cs:123 | returns the same owned column object that every setter writes, so all configuration is visible through it |
| `PropertyMappings.PropertyMapping.Reader` | FlatFiles/TypeMapping/Int32PropertyMapping.cs:119 | the custom reader hook is always absent |
| `PropertyMappings.PropertyMapping.Writer` | FlatFiles/TypeMapping/UInt16PropertyMapping.cs:121 | the custom writer hook is always absent |
| `ColumnDefinitions.Apply` | FlatFiles/TypeMapping/Int32PropertyMapping.cs:75-115 | after one configuration call, the attribute it writes holds its argument and each of the six other attributes keeps its old value |
| `ColumnDefinitions.LastWriteWins` | FlatFiles/TypeMapping/Int32PropertyMapping.cs:93-97 | the same setter called with a and then b leaves the attribute at b, in exactly the state a single call with b gives |
| `ColumnDefinitions.DistinctSettingsCommute` | FlatFiles/TypeMapping/Int32PropertyMapping.cs:75-115 | two setters that write different attributes give the same column in either order |
| `ColumnDefinitions.ApplyAllLastWins` | FlatFiles/TypeMapping/Int32PropertyMapping.cs:75-115 | after any chain of setter calls, each attribute holds the argument of the last call that wrote it, or its original value if no call did |
| `ColumnDefinitions.SameLastSettingsSameConfig` | FlatFiles/TypeMapping/Int32PropertyMapping.cs:75-115 | two chains with the same last call for every attribute configure the column identically, whatever their order and repetitions |
| `PropertyMappings.ConfigureAll` | FlatFiles/TypeMapping/UInt16PropertyMapping.cs:75-115 | calling all seven setters, each on the mapping the previous call returned, ends on the original mapping; its one column holds all seven arguments, which is `ApplyAll` of the chain |
| `PropertyMappings.RenameTwice` | FlatFiles/TypeMapping/UInt16PropertyMapping.cs:75-79 | renaming twice through the returned mapping leaves the column exactly as one rename with the second name would |
| `PropertyMappings.RenameOne` | FlatFiles/TypeMapping/UInt16PropertyMapping.cs:65-79 | a setter leaves the configuration of another mapping's distinct column unchanged |

The two source files match line for line, so each Int32 row also holds for the same lines of
the UInt16 file, and each UInt16 row for the Int32 file. The member and both indices are `const`
fields, so no setter can change them (Int32PropertyMapping.cs:117, 125, 127). Neither can a setter
change the column reference (line 65).

## Left out

- The column classes' parsing, formatting and null resolution are not part of this model.
  `Int32Column` and `UInt16Column` are not shown, so each attribute is stored exactly as the
  setter passed it. In particular there is no resolution of a null null-formatter to the default
  formatter, and no error for a null default value.
- A column's own constructor and its default attribute values are not shown either. In the model,
  a column starts from any given configuration.
- A setter on the C# column property may validate its argument (for example reject a blank
  column name). No such check appears in the mapping files, and none is modelled. A null
  column name is not modelled: the name is a plain string.
- `IMemberMapping` and the `IInt32PropertyMapping`/`IUInt16PropertyMapping` interfaces are not
  separate types. The class exposes their members directly, and each setter returns the class.
- .NET format providers, number styles, member accessors (reflection) and the reader/writer
  hook signatures are opaque types. Nothing is modelled of what they do.
- What a preprocessor computes is left open: it is an arbitrary total function. A C# delegate
  that throws is not modelled.
- The reader/writer pipeline, tokenising, file I/O and concurrent read-only use after
  configuration are outside these files.
- The Configuring-to-Active phase change is not modelled. The source never enforces it, and
  setters stay callable at any time.
- The model does not enforce exclusive ownership of a column. As in the source, nothing stops
  two mappings from being built over one column object.
