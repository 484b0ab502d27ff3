/** Small value wrappers shared by the modules of this model. */
module Common {

  /** A value that may be absent: Ruby's `nil`, JavaScript's `null`/`undefined`. */
  datatype Option<+T> = None | Some(value: T)

  /** True when `suffix` is a suffix of `s` (Ruby's `String#end_with?`). */
  predicate EndsWith(s: string, suffix: string)
  {
    |suffix| <= |s| && s[|s| - |suffix|..] == suffix
  }

  /** True when `prefix` is a prefix of `s` (Ruby's `String#start_with?`). */
  predicate StartsWith(s: string, prefix: string)
  {
    |prefix| <= |s| && s[..|prefix|] == prefix
  }
}
