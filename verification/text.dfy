/** String tests the record rules rely on, with Python's meaning. */
module Text {
  import opened Wrappers

  /** A slice test is the same as "the prefix followed by the rest of the string". */
  lemma PrefixSplit(s: string, prefix: string)
    ensures (|prefix| <= |s| && s[..|prefix|] == prefix) <==> exists rest :: s == prefix + rest
  {
    if |prefix| <= |s| && s[..|prefix|] == prefix {
      assert s == prefix + s[|prefix|..];
    }
    if exists rest :: s == prefix + rest {
      var rest :| s == prefix + rest;
      assert s[..|prefix|] == prefix;
    }
  }

  /** Python's `s.startswith(prefix)`: `s` is `prefix` followed by something, possibly nothing. */
  function StartsWith(s: string, prefix: string): (r: bool)
    ensures r <==> exists rest :: s == prefix + rest
  {
    PrefixSplit(s, prefix);
    |prefix| <= |s| && s[..|prefix|] == prefix
  }

  /** Python truthiness of an `Optional[str]`: the falsy values are exactly `None` and `""`. */
  function Truthy(s: Option<string>): (r: bool)
    ensures !r <==> s == None || s == Some("")
  {
    s.Some? && s.value != ""
  }

  /**
   * A date-time value after parsing. Parsing the ISO text is left to the
   * caller; no rule looks inside it.
   */
  datatype DateTime = DateTime(iso: string)
}
