/** Ruby's `String#chomp` with the default record separator. */
module Text {

  /** True when `s` ends with a carriage return or a line feed. */
  predicate EndsWithTerminator(s: string)
  {
    |s| > 0 && (s[|s| - 1] == '\n' || s[|s| - 1] == '\r')
  }

  /** The three line terminators `chomp` recognises. */
  predicate IsTerminator(t: string)
  {
    t == "\n" || t == "\r" || t == "\r\n"
  }

  /** Removes ONE trailing line terminator: "\r\n" if present, otherwise a
      single "\n" or "\r". Any other trailing whitespace is kept. */
  function Chomp(s: string): (r: string)
    ensures r <= s
    ensures r == s <==> !EndsWithTerminator(s)
    ensures r != s ==> IsTerminator(s[|r|..])
    ensures EndsWithTerminator(s) ==> |r| < |s|
  {
    if |s| == 0 then s
    else if s[|s| - 1] == '\n' then
      if |s| >= 2 && s[|s| - 2] == '\r' then s[..|s| - 2] else s[..|s| - 1]
    else if s[|s| - 1] == '\r' then s[..|s| - 1]
    else s
  }

  /** Appending a terminator and chomping gives the text back, except that a
      "\n" after a text ending in "\r" is taken together with that "\r". */
  lemma ChompRemovesAppendedTerminator(s: string, t: string)
    requires IsTerminator(t)
    ensures !(t == "\n" && |s| > 0 && s[|s| - 1] == '\r') ==> Chomp(s + t) == s
    ensures t == "\n" && |s| > 0 && s[|s| - 1] == '\r' ==> Chomp(s + t) == s[..|s| - 1]
  {
  }

  /** Chomp strips at most one terminator: of two trailing line feeds one stays. */
  lemma ChompStripsOnlyOne(s: string)
    ensures Chomp(s + "\n\n") == s + "\n"
  {
  }
}
