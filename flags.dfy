/**
 * The repeatable command-line flag type used for `-url` and `-prefix`: every
 * occurrence of the flag appends its value to the list.
 */
module Flags {

  /** A Go `error` that may be nil. */
  datatype Option<T> = None | Some(value: T)

  class StringList {
    var values: seq<string>

    constructor ()
      ensures values == []
    {
      values := [];
    }

    /** `Set`: append the flag's value; it never reports an error. */
    method Set(value: string) returns (err: Option<string>)
      modifies this
      ensures values == old(values) + [value]
      ensures err == None
    {
      values := values + [value];
      err := None;
    }
  }

  /**
   * Two occurrences of a flag give both values, in command-line order, with
   * no error from either.
   */
  method TwoOccurrences(first: string, second: string) returns (values: seq<string>, failed: bool)
    ensures values == [first, second]
    ensures !failed
  {
    var list := new StringList();
    var err1 := list.Set(first);
    var err2 := list.Set(second);
    values := list.values;
    failed := err1.Some? || err2.Some?;
  }
}
