/** The property mapping of a C# int member to an Int32Column. */
module Int32Mappings {
  import opened ColumnDefinitions
  import opened PropertyMappings

  type Int32Column = Column<int32>
  type Int32PropertyMapping = PropertyMapping<int32>

  /** Binds member to column at the given physical and logical indices. */
  method Create(column: Int32Column, member: MemberAccessor, physicalIndex: int32, logicalIndex: int32)
    returns (m: Int32PropertyMapping)
    ensures fresh(m)
    ensures m.ColumnDefinition() == column && m.Member == member
    ensures m.PhysicalIndex == physicalIndex && m.LogicalIndex == logicalIndex
    ensures m.Reader().None? && m.Writer().None?
  {
    m := new PropertyMapping(column, member, physicalIndex, logicalIndex);
  }
}
