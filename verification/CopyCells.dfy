/** Column values as COPY sees them. */
module CopyCells {
  import opened Wrappers

  /** Times, ids and counts are numbers. */
  datatype Cell = NumberCell(number: int) | TextCell(text: string) | NullableCell(nullable: Option<int>)

  /** The error of a copy source that is asked for values before its first or after its last row. */
  datatype CopyError = NotPositioned
}
