/** The words of a heap and what a chunk of it is used for. */
module Memory {
  datatype Word = Size(n: int, p: bool, a: bool) | Ptr(to: int)
}
