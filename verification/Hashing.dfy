/** SHA-256, taken to be injective. */
module Hashing {
  datatype Hash<+T> = Sha256(token: T)
}
