/** Bytes and byte strings, shared by every component. */
module Bytes {
  type Byte = x: int | 0 <= x < 256

  /** A C++ std::string or byte vector: any bytes, NUL included. */
  type Blob = seq<Byte>

  lemma Assoc<T>(a: seq<T>, b: seq<T>, c: seq<T>)
    ensures (a + b) + c == a + (b + c)
  {
  }
}
