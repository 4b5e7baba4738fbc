module Basics {

  datatype Option<+T> = None | Some(value: T)

  /** What's kept of a sequence that only ever holds its newest n members. */
  function LastN<T>(s: seq<T>, n: nat): (r: seq<T>)
    ensures |r| <= n && |r| <= |s|
    ensures r == s[|s| - |r|..]
  {
    if |s| <= n then s else s[|s| - n..]
  }

  /** The names in a list. */
  function Members(s: seq<string>): set<string> {
    set x | x in s
  }
}
