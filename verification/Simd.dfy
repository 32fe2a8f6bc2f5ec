/** The instruction sets the vector code distinguishes: which of HAVE_SSSE3 and HAVE_SSE41 are defined. */
module Simd {
  datatype Isa = Sse2 | Ssse3 | Sse41

  /** The reference code, or the vector code built for an instruction set. */
  datatype Backend = Reference | Vector(isa: Isa)
}
