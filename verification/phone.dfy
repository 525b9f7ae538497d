/**
  The phone-number recogniser of the order form (`isValidPhone`).

  The source tests the string against the anchored regular expression

      ^ \+? \d{1,4}? [-.\s]? \(? \d{1,3}? \)? [-.\s]? \d{1,4} [-.\s]? \d{1,4} [-.\s]? \d{1,9} $

  Every atom of it is a character class repeated between a lower and an
  upper bound, so the pattern is written here as a list of such pieces and
  the language as "the string splits into consecutive chunks, one per piece".
  The `?` after `{1,4}` and `{1,3}` makes those quantifiers lazy: they still
  need at least one digit. Because the pattern is anchored at both ends and
  only asked whether it matches, laziness (the order in which a backtracking
  engine tries chunk sizes) does not change the set of accepted strings.
 */
module Phone {

  /** `\d` without the Unicode flag: the ASCII digits. */
  predicate IsDigit(c: char) {
    '0' <= c <= '9'
  }

  /** `\s`: the ECMAScript WhiteSpace and LineTerminator code points. */
  predicate IsSpace(c: char) {
    || c == '\t' || c == '\n' || c == '\U{000B}' || c == '\U{000C}' || c == '\r'
    || c == ' ' || c == '\U{00A0}' || c == '\U{1680}'
    || ('\U{2000}' <= c <= '\U{200A}')
    || c == '\U{2028}' || c == '\U{2029}' || c == '\U{202F}' || c == '\U{205F}'
    || c == '\U{3000}' || c == '\U{FEFF}'
  }

  /** The character classes the pattern uses. */
  datatype CharClass =
    | Digit        // \d
    | PlusSign     // \+
    | OpenParen    // \(
    | CloseParen   // \)
    | Separator    // [-.\s]

  predicate InClass(cls: CharClass, c: char) {
    match cls
    case Digit => IsDigit(c)
    case PlusSign => c == '+'
    case OpenParen => c == '('
    case CloseParen => c == ')'
    case Separator => c == '-' || c == '.' || IsSpace(c)
  }

  /** One atom of the pattern: `cls{lo,hi}`. */
  datatype Piece = Piece(cls: CharClass, lo: nat, hi: nat)

  /** The pattern of `isValidPhone`, piece by piece. */
  const PhonePattern: seq<Piece> := [
    Piece(PlusSign, 0, 1),    // \+?
    Piece(Digit, 1, 4),       // \d{1,4}?
    Piece(Separator, 0, 1),   // [-.\s]?
    Piece(OpenParen, 0, 1),   // \(?
    Piece(Digit, 1, 3),       // \d{1,3}?
    Piece(CloseParen, 0, 1),  // \)?
    Piece(Separator, 0, 1),   // [-.\s]?
    Piece(Digit, 1, 4),       // \d{1,4}
    Piece(Separator, 0, 1),   // [-.\s]?
    Piece(Digit, 1, 4),       // \d{1,4}
    Piece(Separator, 0, 1),   // [-.\s]?
    Piece(Digit, 1, 9)        // \d{1,9}
  ]

  predicate AllIn(cls: CharClass, s: string) {
    forall i :: 0 <= i < |s| ==> InClass(cls, s[i])
  }

  /** `s` is, exactly and entirely, a match of the pieces `p` in order.
      (The string's length is part of the termination measure so that the
      verifier unfolds the matcher for the fixed phone pattern only on
      demand, not exhaustively.) */
  predicate Matches(p: seq<Piece>, s: string)
    decreases |p|, |s|
  {
    if |p| == 0 then |s| == 0
    else exists k :: p[0].lo <= k <= p[0].hi && k <= |s| && AllIn(p[0].cls, s[..k]) && Matches(p[1..], s[k..])
  }

  /** `isValidPhone(str)`: the anchored pattern accepts `str`. */
  function IsValidPhone(s: string): (r: bool)
    ensures r ==> 0 < |s| && (s[0] == '+' || IsDigit(s[0]))
  {
    if Matches(PhonePattern, s) then LeadingChar(PhonePattern, s); true else false
  }

  /** A match of an optional `+` followed by a mandatory digit run starts
      with the `+` or with a digit. */
  lemma LeadingChar(p: seq<Piece>, s: string)
    requires 2 <= |p| && p[0] == Piece(PlusSign, 0, 1) && p[1].cls == Digit && 1 <= p[1].lo
    requires Matches(p, s)
    ensures 0 < |s| && (s[0] == '+' || IsDigit(s[0]))
  {
    var k :| 0 <= k <= 1 && k <= |s| && AllIn(PlusSign, s[..k]) && Matches(p[1..], s[k..]);
    if k == 1 {
      assert InClass(PlusSign, s[..1][0]);
    } else {
      var rest := p[1..];
      assert rest[0] == p[1];
      var j :| rest[0].lo <= j <= rest[0].hi && j <= |s| && AllIn(Digit, s[..j]) && Matches(rest[1..], s[j..]);
      assert InClass(Digit, s[..j][0]);
    }
  }

  // An independent recogniser: the set of positions the pattern can have
  // reached after each piece, as a nondeterministic automaton is simulated.

  /** One chunk of `piece` can run from one of `starts` up to position `j`. */
  predicate EndsAt(piece: Piece, s: string, starts: set<nat>, j: nat)
    requires j <= |s|
  {
    exists i: nat :: i in starts && i <= j && piece.lo <= j - i <= piece.hi && AllIn(piece.cls, s[i..j])
  }

  /** The end positions of one more chunk of `piece`, started from any of `starts`. */
  function Advance(piece: Piece, s: string, starts: set<nat>): set<nat>
  {
    set j: nat | j <= |s| && EndsAt(piece, s, starts, j)
  }

  /** The positions reachable after all pieces of `p`. */
  function Reach(p: seq<Piece>, s: string, starts: set<nat>): set<nat>
    decreases |p|
  {
    if |p| == 0 then starts else Reach(p[1..], s, Advance(p[0], s, starts))
  }

  /** The pattern accepts when the end of the string is reachable from its start. */
  predicate Simulate(p: seq<Piece>, s: string) {
    |s| in Reach(p, s, {0})
  }
}
