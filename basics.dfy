/** Small shared vocabulary: an optional value and the string prefix test
    that Go's strings.HasPrefix performs. */
module Basics {

  datatype Option<T> = None | Some(value: T)

  /** strings.HasPrefix(s, prefix): `prefix` is a literal leading part of `s`. */
  predicate HasPrefix(s: string, prefix: string)
  {
    |prefix| <= |s| && s[..|prefix|] == prefix
  }
}
