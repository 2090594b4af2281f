// The values the tables of the codec hold.

module DataBlocks {
  // A data block as the program's string of hexadecimal digits.
  datatype Value = Value(text: string)
}
