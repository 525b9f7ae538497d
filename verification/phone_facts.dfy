/**
  What the phone pattern promises about the strings it accepts, and the
  agreement of the chunk-splitting matcher with the position-set simulation.
 */
module PhoneFacts {
  import opened Phone

  // ---------------------------------------------------------------------
  // The two recognisers agree

  /** Splitting a suffix at an offset is slicing the whole string. */
  lemma SuffixSlices(s: string, i: nat, j: nat)
    requires i <= j <= |s|
    ensures s[i..][..j - i] == s[i..j]
    ensures s[i..][j - i..] == s[j..]
  {
  }

  /** The pieces `p` match what is left of `s` from one of the positions `starts`. */
  predicate MatchesFrom(p: seq<Piece>, s: string, starts: set<nat>) {
    exists i: nat :: i in starts && i <= |s| && Matches(p, s[i..])
  }

  /** The first chunk of a match and the match of the remaining pieces. */
  lemma FirstChunk(p: seq<Piece>, s: string) returns (k: nat)
    requires |p| > 0 && Matches(p, s)
    ensures p[0].lo <= k <= p[0].hi && k <= |s|
    ensures AllIn(p[0].cls, s[..k]) && Matches(p[1..], s[k..])
  {
    k :| p[0].lo <= k <= p[0].hi && k <= |s| && AllIn(p[0].cls, s[..k]) && Matches(p[1..], s[k..]);
  }

  /** A position reached by one chunk, followed by a match of the rest, is a match from a start. */
  lemma AdvanceSound(p: seq<Piece>, s: string, starts: set<nat>, j: nat)
    requires |p| > 0 && j in Advance(p[0], s, starts) && Matches(p[1..], s[j..])
    ensures MatchesFrom(p, s, starts)
  {
    var i: nat :| i in starts && i <= j && p[0].lo <= j - i <= p[0].hi && AllIn(p[0].cls, s[i..j]);
    SuffixSlices(s, i, j);
    MatchStep(p, s[i..], j - i);
  }

  /** A match from a start passes through a position one chunk further on. */
  lemma AdvanceComplete(p: seq<Piece>, s: string, starts: set<nat>)
    requires |p| > 0 && MatchesFrom(p, s, starts)
    ensures MatchesFrom(p[1..], s, Advance(p[0], s, starts))
  {
    var i: nat :| i in starts && i <= |s| && Matches(p, s[i..]);
    var k := FirstChunk(p, s[i..]);
    SuffixSlices(s, i, i + k);
    assert EndsAt(p[0], s, starts, i + k);
  }

  /** The end of `s` is reachable from `starts` exactly when the pieces match
      the rest of `s` from one of those starting positions. */
  lemma {:induction false} ReachMatches(p: seq<Piece>, s: string, starts: set<nat>)
    ensures |s| in Reach(p, s, starts) <==> MatchesFrom(p, s, starts)
    decreases |p|
  {
    if |p| == 0 {
      if |s| in starts {
        assert Matches(p, s[|s|..]);
      }
    } else {
      var a := Advance(p[0], s, starts);
      ReachMatches(p[1..], s, a);
      if |s| in Reach(p, s, starts) {
        var j: nat :| j in a && j <= |s| && Matches(p[1..], s[j..]);
        AdvanceSound(p, s, starts, j);
      }
      if MatchesFrom(p, s, starts) {
        AdvanceComplete(p, s, starts);
      }
    }
  }

  /** The simulation accepts exactly the strings the pattern matches. */
  lemma SimulateAgrees(p: seq<Piece>, s: string)
    ensures Simulate(p, s) <==> Matches(p, s)
  {
    ReachMatches(p, s, {0});
    assert s[0..] == s;
    if Matches(p, s) {
      assert MatchesFrom(p, s, {0});
    }
  }

  // ---------------------------------------------------------------------
  // A match is a concatenation of one fitting chunk per piece

  /** `chunks` has one chunk per piece, each within its piece's bounds and class. */
  predicate Fits(p: seq<Piece>, chunks: seq<string>) {
    && |chunks| == |p|
    && forall j :: 0 <= j < |p| ==> p[j].lo <= |chunks[j]| <= p[j].hi && AllIn(p[j].cls, chunks[j])
  }

  function Concat(chunks: seq<string>): string {
    if |chunks| == 0 then "" else chunks[0] + Concat(chunks[1..])
  }

  lemma {:induction false} ConcatAppend(a: seq<string>, b: seq<string>)
    ensures Concat(a + b) == Concat(a) + Concat(b)
    decreases |a|
  {
    if |a| == 0 {
      assert a + b == b;
    } else {
      assert (a + b)[0] == a[0];
      assert (a + b)[1..] == a[1..] + b;
      ConcatAppend(a[1..], b);
    }
  }

  /** Fitting chunks, concatenated, are a match. */
  lemma {:induction false} MatchesOfChunks(p: seq<Piece>, chunks: seq<string>)
    requires Fits(p, chunks)
    ensures Matches(p, Concat(chunks))
    decreases |p|
  {
    if |p| > 0 {
      assert Fits(p[1..], chunks[1..]) by {
        forall j | 0 <= j < |p| - 1
          ensures p[1..][j].lo <= |chunks[1..][j]| <= p[1..][j].hi && AllIn(p[1..][j].cls, chunks[1..][j])
        {
          assert p[1..][j] == p[j + 1] && chunks[1..][j] == chunks[j + 1];
        }
      }
      MatchesOfChunks(p[1..], chunks[1..]);
      var s := Concat(chunks);
      var k := |chunks[0]|;
      assert p[0].lo <= k <= p[0].hi && AllIn(p[0].cls, chunks[0]);
      assert s[..k] == chunks[0];
      assert s[k..] == Concat(chunks[1..]);
      MatchStep(p, s, k);
    }
  }

  /** Every match splits into fitting chunks. */
  lemma {:induction false} ChunksOfMatch(p: seq<Piece>, s: string) returns (chunks: seq<string>)
    requires Matches(p, s)
    ensures Fits(p, chunks) && Concat(chunks) == s
    decreases |p|
  {
    if |p| == 0 {
      chunks := [];
    } else {
      var k := FirstChunk(p, s);
      var rest := ChunksOfMatch(p[1..], s[k..]);
      chunks := [s[..k]] + rest;
      assert chunks[1..] == rest;
      assert s == s[..k] + s[k..];
      forall j | 0 <= j < |p|
        ensures p[j].lo <= |chunks[j]| <= p[j].hi && AllIn(p[j].cls, chunks[j])
      {
        if j > 0 {
          assert chunks[j] == rest[j - 1] && p[j] == p[1..][j - 1];
        }
      }
    }
  }

  /** The pattern matches `s` exactly when `s` splits into chunks fitting its pieces. */
  lemma MatchesIffChunks(p: seq<Piece>, s: string)
    ensures Matches(p, s) <==> exists chunks :: Fits(p, chunks) && Concat(chunks) == s
  {
    if Matches(p, s) {
      var chunks := ChunksOfMatch(p, s);
    }
    if exists chunks :: Fits(p, chunks) && Concat(chunks) == s {
      var chunks :| Fits(p, chunks) && Concat(chunks) == s;
      MatchesOfChunks(p, chunks);
    }
  }

  // ---------------------------------------------------------------------
  // Length

  function MinLen(p: seq<Piece>): nat {
    if |p| == 0 then 0 else p[0].lo + MinLen(p[1..])
  }

  function MaxLen(p: seq<Piece>): nat {
    if |p| == 0 then 0 else p[0].hi + MaxLen(p[1..])
  }

  /** A match is as long as the pieces' lower bounds together at least and
      their upper bounds together at most. */
  lemma {:induction false} MatchLength(p: seq<Piece>, s: string)
    requires Matches(p, s)
    ensures MinLen(p) <= |s| <= MaxLen(p)
    decreases |p|
  {
    if |p| > 0 {
      var k := FirstChunk(p, s);
      MatchLength(p[1..], s[k..]);
    }
  }

  // ---------------------------------------------------------------------
  // Digits

  function DigitCount(s: string): nat {
    if |s| == 0 then 0 else (if IsDigit(s[0]) then 1 else 0) + DigitCount(s[1..])
  }

  lemma {:induction false} DigitCountConcat(a: string, b: string)
    ensures DigitCount(a + b) == DigitCount(a) + DigitCount(b)
    decreases |a|
  {
    if |a| == 0 {
      assert a + b == b;
    } else {
      assert (a + b)[0] == a[0];
      assert (a + b)[1..] == a[1..] + b;
      assert DigitCount(a + b) == (if IsDigit(a[0]) then 1 else 0) + DigitCount(a[1..] + b);
      DigitCountConcat(a[1..], b);
    }
  }

  lemma DigitCountSplit(s: string, k: nat)
    requires k <= |s|
    ensures DigitCount(s) == DigitCount(s[..k]) + DigitCount(s[k..])
  {
    assert s == s[..k] + s[k..];
    DigitCountConcat(s[..k], s[k..]);
  }

  /** A chunk of the digit class is all digits; a chunk of any other class has none. */
  lemma {:induction false} ChunkDigits(cls: CharClass, t: string)
    requires AllIn(cls, t)
    ensures DigitCount(t) == if cls == Digit then |t| else 0
    decreases |t|
  {
    if |t| > 0 {
      assert InClass(cls, t[0]);
      ChunkDigits(cls, t[1..]);
    }
  }

  function MinDigits(p: seq<Piece>): nat {
    if |p| == 0 then 0 else (if p[0].cls == Digit then p[0].lo else 0) + MinDigits(p[1..])
  }

  function MaxDigits(p: seq<Piece>): nat {
    if |p| == 0 then 0 else (if p[0].cls == Digit then p[0].hi else 0) + MaxDigits(p[1..])
  }

  /** The digits of a match are bounded by the digit pieces' bounds. */
  lemma {:induction false} MatchDigits(p: seq<Piece>, s: string)
    requires Matches(p, s)
    ensures MinDigits(p) <= DigitCount(s) <= MaxDigits(p)
    decreases |p|
  {
    if |p| > 0 {
      var k := FirstChunk(p, s);
      MatchDigits(p[1..], s[k..]);
      ChunkDigits(p[0].cls, s[..k]);
      DigitCountSplit(s, k);
    }
  }

  // ---------------------------------------------------------------------
  // Alphabet

  /** The characters any piece of the pattern admits: digits, `+`, `(`, `)`,
      `-`, `.` and whitespace. */
  predicate PhoneChar(c: char) {
    IsDigit(c) || c == '+' || c == '(' || c == ')' || c == '-' || c == '.' || IsSpace(c)
  }

  /** Every character of a match belongs to the phone alphabet. */
  lemma {:induction false} MatchAlphabet(p: seq<Piece>, s: string)
    requires Matches(p, s)
    ensures forall i :: 0 <= i < |s| ==> PhoneChar(s[i])
    decreases |p|
  {
    if |p| > 0 {
      var k := FirstChunk(p, s);
      MatchAlphabet(p[1..], s[k..]);
      forall i | 0 <= i < |s|
        ensures PhoneChar(s[i])
      {
        if i < k {
          assert InClass(p[0].cls, s[..k][i]);
        } else {
          assert s[i] == s[k..][i - k];
        }
      }
    }
  }

  /** No piece of `p` admits `c`. */
  predicate Excludes(p: seq<Piece>, c: char) {
    forall j :: 0 <= j < |p| ==> !InClass(p[j].cls, c)
  }

  /** A character no piece admits never occurs in a match. */
  lemma {:induction false} MatchAvoids(p: seq<Piece>, s: string, c: char)
    requires Matches(p, s)
    requires Excludes(p, c)
    ensures forall i :: 0 <= i < |s| ==> s[i] != c
    decreases |p|
  {
    if |p| > 0 {
      var k := FirstChunk(p, s);
      assert !InClass(p[0].cls, c);
      assert Excludes(p[1..], c) by {
        forall j | 0 <= j < |p| - 1
          ensures !InClass(p[1..][j].cls, c)
        {
          assert p[1..][j] == p[j + 1];
        }
      }
      MatchAvoids(p[1..], s[k..], c);
      forall i | 0 <= i < |s|
        ensures s[i] != c
      {
        if i < k {
          assert InClass(p[0].cls, s[..k][i]);
        } else {
          assert s[i] == s[k..][i - k];
        }
      }
    }
  }

  // ---------------------------------------------------------------------
  // The phone pattern itself

  lemma PatternMinLen()
    ensures MinLen(PhonePattern) == 5
  {
  }

  lemma PatternMaxLen()
    ensures MaxLen(PhonePattern) == 31
  {
  }

  lemma PatternMinDigits()
    ensures MinDigits(PhonePattern) == 5
  {
  }

  lemma PatternMaxDigits()
    ensures MaxDigits(PhonePattern) == 24
  {
  }

  /** An accepted phone number has 5 to 31 characters and 5 to 24 digits. */
  lemma PhoneBounds(s: string)
    requires IsValidPhone(s)
    ensures 5 <= |s| <= 31
    ensures 5 <= DigitCount(s) <= 24
  {
    PatternMinLen();
    PatternMaxLen();
    PatternMinDigits();
    PatternMaxDigits();
    MatchLength(PhonePattern, s);
    MatchDigits(PhonePattern, s);
  }

  /** An accepted phone number uses digits, `+`, `(`, `)`, `-`, `.` and whitespace only. */
  lemma PhoneAlphabet(s: string)
    requires IsValidPhone(s)
    ensures forall i :: 0 <= i < |s| ==> PhoneChar(s[i])
  {
    MatchAlphabet(PhonePattern, s);
  }

  /** No piece after the first admits `+`. */
  lemma PlusOnlyInFirstPiece()
    ensures Excludes(PhonePattern[1..], '+')
  {
  }

  /** `+` can only be the first character of an accepted phone number. */
  lemma PlusOnlyFirst(s: string, i: nat)
    requires IsValidPhone(s)
    requires i < |s| && s[i] == '+'
    ensures i == 0
  {
    var k := FirstChunk(PhonePattern, s);
    PlusOnlyInFirstPiece();
    MatchAvoids(PhonePattern[1..], s[k..], '+');
  }

  predicate IsLetter(c: char) {
    ('a' <= c <= 'z') || ('A' <= c <= 'Z')
  }

  /** The empty string is not a phone number. */
  lemma RejectsEmpty()
    ensures !IsValidPhone("")
  {
    if IsValidPhone("") {
      PhoneBounds("");
    }
  }

  /** No list of pieces matches a string with a character outside the phone alphabet. */
  lemma ForeignCharRejected(p: seq<Piece>, s: string, i: nat)
    requires i < |s| && !PhoneChar(s[i])
    ensures !Matches(p, s)
  {
    if Matches(p, s) {
      MatchAlphabet(p, s);
    }
  }

  /** A string with a letter anywhere in it is not a phone number. */
  lemma RejectsLetter(s: string, i: nat)
    requires i < |s| && IsLetter(s[i])
    ensures !IsValidPhone(s)
  {
    ForeignCharRejected(PhonePattern, s, i);
  }

  /** One chunk of the first piece followed by a match of the rest is a match. */
  lemma MatchStep(p: seq<Piece>, s: string, k: nat)
    requires |p| > 0 && p[0].lo <= k <= p[0].hi && k <= |s|
    requires AllIn(p[0].cls, s[..k]) && Matches(p[1..], s[k..])
    ensures Matches(p, s)
  {
  }

  /** `"+1 555-123-4567"` split into one chunk per piece of the phone pattern,
      in three runs of four pieces. */
  const ExampleHead: seq<string> := ["+", "1", " ", ""]
  const ExampleMiddle: seq<string> := ["5", "", "", "55"]
  const ExampleTail: seq<string> := ["-", "123", "-", "4567"]

  lemma ExampleChunksFit()
    ensures Fits(PhonePattern, ExampleHead + ExampleMiddle + ExampleTail)
  {
  }

  lemma ExampleRunsJoin()
    ensures Concat(ExampleHead) == "+1 "
    ensures Concat(ExampleMiddle) == "555"
    ensures Concat(ExampleTail) == "-123-4567"
  {
  }

  lemma ExampleChunksJoin()
    ensures Concat(ExampleHead + ExampleMiddle + ExampleTail) == "+1 555-123-4567"
  {
    ConcatAppend(ExampleHead + ExampleMiddle, ExampleTail);
    ConcatAppend(ExampleHead, ExampleMiddle);
    ExampleRunsJoin();
  }

  /** `"+1 555-123-4567"` is accepted. */
  lemma AcceptsExample()
    ensures IsValidPhone("+1 555-123-4567")
  {
    ExampleChunksFit();
    MatchesOfChunks(PhonePattern, ExampleHead + ExampleMiddle + ExampleTail);
    ExampleChunksJoin();
  }

  /** `"abc"` is rejected. */
  lemma RejectsAbc()
    ensures !IsValidPhone("abc")
  {
    RejectsLetter("abc", 0);
  }
}
