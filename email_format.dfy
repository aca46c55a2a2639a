/** The email-format rule of the "Add New Client" form: a non-empty email must
    match the JavaScript regular expression ^\S+@\S+\.\S+$ (no flags). */
module EmailFormat {

  /** JavaScript's \s class: the ECMAScript WhiteSpace and LineTerminator code points. */
  predicate IsWs(c: char)
  {
    var n := c as int;
    (0x09 <= n <= 0x0D) || n == 0x20 || n == 0xA0 || n == 0x1680 ||
    (0x2000 <= n <= 0x200A) || n == 0x2028 || n == 0x2029 || n == 0x202F ||
    n == 0x205F || n == 0x3000 || n == 0xFEFF
  }

  /** Every character of t is matched by \S. */
  predicate NoWhitespace(t: string)
  {
    forall k :: 0 <= k < |t| ==> !IsWs(t[k])
  }

  /** The regular expression itself: s splits as A "@" B "." C where each of A, B
      and C is a non-empty run of \S characters (the '@' at index i, the '.' at j).
      Since \S also matches '@' and '.', the runs may contain them. */
  ghost predicate MatchesEmailRegex(s: string)
  {
    exists i, j ::
      0 < i && i + 1 < j && j + 1 < |s| &&
      s[i] == '@' && s[j] == '.' &&
      NoWhitespace(s[..i]) && NoWhitespace(s[i + 1..j]) && NoWhitespace(s[j + 1..])
  }

  /** The same language in flat terms: no whitespace anywhere, an '@' at some
      index i >= 1 and a '.' at some index j with i + 2 <= j <= |s| - 2. */
  predicate EmailShape(s: string)
  {
    NoWhitespace(s) &&
    exists i, j :: 1 <= i && i + 2 <= j <= |s| - 2 && s[i] == '@' && s[j] == '.'
  }

  lemma EmailRegexIffShape(s: string)
    ensures MatchesEmailRegex(s) <==> EmailShape(s)
  {
  }

  /** Index of the first '@' at or after `from`, or |s| when there is none. */
  function FirstAt(s: string, from: nat): (r: nat)
    requires from <= |s|
    ensures from <= r <= |s|
    ensures r < |s| ==> s[r] == '@'
    ensures forall k :: from <= k < r ==> s[k] != '@'
    decreases |s| - from
  {
    if from == |s| then |s|
    else if s[from] == '@' then from
    else FirstAt(s, from + 1)
  }

  /** Index of the last '.' strictly before `upto`, or -1 when there is none. */
  function LastDot(s: string, upto: nat): (r: int)
    requires upto <= |s|
    ensures -1 <= r < upto
    ensures 0 <= r ==> s[r] == '.'
    ensures forall k :: r < k < upto ==> s[k] != '.'
  {
    if upto == 0 then -1
    else if s[upto - 1] == '.' then upto - 1
    else LastDot(s, upto - 1)
  }

  /** The regex test: the earliest '@' after the first character and the latest
      '.' before the last character decide whether any valid split exists. */
  function IsEmail(s: string): (r: bool)
    ensures r <==> EmailShape(s)
    ensures r <==> MatchesEmailRegex(s)
  {
    if |s| == 0 then false
    else
      var i := FirstAt(s, 1);
      var j := LastDot(s, |s| - 1);
      NoWhitespace(s) && i < |s| && 0 <= j && i + 2 <= j
  }
}
