/** The property mapping of a C# ushort member to a UInt16Column. */
module UInt16Mappings {
  import opened ColumnDefinitions
  import opened PropertyMappings

  /** A C# ushort: the value type of a UInt16Column. */
  newtype uint16 = x: int | 0 <= x < 0x1_0000

  type UInt16Column = Column<uint16>
  type UInt16PropertyMapping = PropertyMapping<uint16>

  /** Binds member to column at the given physical and logical indices. */
  method Create(column: UInt16Column, member: MemberAccessor, physicalIndex: int32, logicalIndex: int32)
    returns (m: UInt16PropertyMapping)
    ensures fresh(m)
    ensures m.ColumnDefinition() == column && m.Member == member
    ensures m.PhysicalIndex == physicalIndex && m.LogicalIndex == logicalIndex
    ensures m.Reader().None? && m.Writer().None?
  {
    m := new PropertyMapping(column, member, physicalIndex, logicalIndex);
  }
}
