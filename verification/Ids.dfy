/** Identifiers and digests: only their equality matters. */
module Ids {
  type Id(0, ==, !new)
}
