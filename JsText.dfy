/** The JavaScript string behaviour the three features lean on: `String.prototype.trim`
    (used to reject blank input), optional values that may be `undefined`, what `+`
    does with an `undefined` operand, and the message a `catch` block shows. */
module JsText {

  /** A value that may be `null` or `undefined` in the source. */
  datatype Option<+T> = None | Some(value: T)

  /** What a `catch (err)` block receives: an `Error` carrying a message, or any
      other thrown value. */
  datatype Thrown = ErrorObject(message: string) | NonError

  /** `err instanceof Error ? err.message : fallback` */
  function ErrorText(t: Thrown, fallback: string): string
  {
    match t
    case ErrorObject(m) => m
    case NonError => fallback
  }

  /** `s + x` where `x: string | undefined`: an absent text reads as "undefined". */
  function AsText(t: Option<string>): string
  {
    match t
    case Some(s) => s
    case None => "undefined"
  }

  /** A `string | undefined` in a condition: false for `undefined` and for "". */
  predicate Truthy(t: Option<string>)
  {
    t.Some? && t.value != ""
  }

  /** The code points `trim` removes: ECMAScript WhiteSpace (tab, vertical tab, form
      feed, the byte-order mark and every space separator of category Zs) and
      LineTerminator (line feed, carriage return, U+2028, U+2029). */
  predicate IsWhitespace(c: char)
  {
    || c == '\t' || c == '\n' || c == '\U{B}' || c == '\U{C}' || c == '\r'
    || c == ' ' || c == '\U{A0}' || c == '\U{1680}'
    || ('\U{2000}' <= c <= '\U{200A}')
    || c == '\U{2028}' || c == '\U{2029}' || c == '\U{202F}' || c == '\U{205F}'
    || c == '\U{3000}' || c == '\U{FEFF}'
  }

  /** Every character of `s` is whitespace (the empty string included). */
  predicate IsBlank(s: string)
  {
    forall i :: 0 <= i < |s| ==> IsWhitespace(s[i])
  }

  /** Drops leading whitespace: the result is the suffix of `s` that starts at its
      first non-whitespace character. */
  function TrimStart(s: string): (r: string)
    ensures |r| <= |s| && r == s[|s| - |r|..]
    ensures forall i :: 0 <= i < |s| - |r| ==> IsWhitespace(s[i])
    ensures r == [] || !IsWhitespace(r[0])
  {
    if s != [] && IsWhitespace(s[0]) then TrimStart(s[1..]) else s
  }

  /** Drops trailing whitespace: the result is the prefix of `s` that ends at its
      last non-whitespace character. */
  function TrimEnd(s: string): (r: string)
    ensures |r| <= |s| && r == s[..|r|]
    ensures forall i :: |r| <= i < |s| ==> IsWhitespace(s[i])
    ensures r == [] || !IsWhitespace(r[|r| - 1])
  {
    if s != [] && IsWhitespace(s[|s| - 1]) then TrimEnd(s[..|s| - 1]) else s
  }

  /** `s.trim()` */
  function Trim(s: string): string
  {
    TrimEnd(TrimStart(s))
  }

  /** `!s.trim()` holds exactly for the blank strings: the guard the chat and the
      search use to ignore empty or whitespace-only input. */
  lemma TrimEmptyIffBlank(s: string)
    ensures Trim(s) == [] <==> IsBlank(s)
  {
  }

  /** Trimming keeps the text between the first and last non-whitespace characters:
      the result is a slice of `s` with only whitespace cut from either end, and all
      of it, since what is kept neither starts nor ends with whitespace. */
  lemma TrimIsSlice(s: string)
    ensures exists i, j :: 0 <= i <= j <= |s| && Trim(s) == s[i..j]
                           && IsBlank(s[..i]) && IsBlank(s[j..])
    ensures Trim(s) == [] || (!IsWhitespace(Trim(s)[0]) && !IsWhitespace(Trim(s)[|Trim(s)| - 1]))
  {
    var t := TrimStart(s);
    var u := TrimEnd(t);
    var i := |s| - |t|;
    var j := i + |u|;
    assert t == s[i..] && u == t[..|u|];
    assert Trim(s) == s[i..j];
    forall k | 0 <= k < i
      ensures IsWhitespace(s[..i][k])
    {
      assert s[..i][k] == s[k];
    }
    forall k | 0 <= k < |s| - j
      ensures IsWhitespace(s[j..][k])
    {
      assert s[j..][k] == t[|u| + k];
    }
  }
}
