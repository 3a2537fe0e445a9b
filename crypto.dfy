/** The password hasher (bcrypt), abstracted to an ideal one-way function. */
module Crypto {

  /** A digest remembers its plaintext, so two different plaintexts never share a
      digest. Salting, the cost factor and one-wayness are not modelled. */
  datatype Digest<T> = Digest(preimage: T)

  /** `bcrypt.hash(x, 10)`. */
  function Hash<T>(x: T): Digest<T>
  {
    Digest(x)
  }

  /** `bcrypt.compare(x, d)`. */
  predicate Verify<T(==)>(x: T, d: Digest<T>)
  {
    d == Hash(x)
  }

  /** A digest verifies exactly the plaintext it was made from. */
  lemma VerifyHash<T>(x: T, y: T)
    ensures Verify(x, Hash(y)) <==> x == y
  {
  }
}
