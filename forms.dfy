/** What the sign-up and settings forms share: the form record, the
    error map, the e-mail pattern, the password-complexity pattern and the
    display name. */
module Forms {
  import opened Strings

  /** The `form` state of the sign-up page and the `user` state of the
      settings page (same five fields). */
  datatype Form = Form(firstName: string, lastName: string, email: string, password: string, confirmPassword: string)

  /** The keys of `tempErrors`. */
  datatype FormField = FirstName | LastName | Email | Password | ConfirmPassword

  /** `tempErrors`: one message per failing field. */
  type Errors = map<FormField, string>

  const AllFields: set<FormField> := {FirstName, LastName, Email, Password, ConfirmPassword}

  /** `\s` in a JavaScript regular expression. */
  predicate IsWhitespace(c: char)
  {
    c == '\t' || c == '\n' || c == '\U{000B}' || c == '\U{000C}' || c == '\r' || c == ' ' ||
    c == '\U{00A0}' || c == '\U{1680}' || ('\U{2000}' <= c <= '\U{200A}') ||
    c == '\U{2028}' || c == '\U{2029}' || c == '\U{202F}' || c == '\U{205F}' ||
    c == '\U{3000}' || c == '\U{FEFF}'
  }

  /** `[^\s@]`. */
  predicate EmailChar(c: char)
  {
    !IsWhitespace(c) && c != '@'
  }

  /** `^[^\s@]+@[^\s@]+\.[^\s@]+$` matches `s` with its `@` at `at` and the
      literal `.` at `dot`. */
  ghost predicate EmailMatchAt(s: string, at: int, dot: int)
  {
    0 < at && at + 1 < dot && dot + 1 < |s| && s[at] == '@' && s[dot] == '.' &&
    forall p :: 0 <= p < |s| && p != at ==> EmailChar(s[p])
  }

  /** The e-mail regular expression matches `s`. */
  ghost predicate EmailPattern(s: string)
  {
    exists at, dot :: EmailMatchAt(s, at, dot)
  }

  /** A `.` strictly inside `d`: neither its first nor its last character. */
  predicate HasInnerDot(d: string)
  {
    exists k | 0 < k < |d| - 1 :: d[k] == '.'
  }

  /** The e-mail check: no whitespace, exactly one `@`, something before
      it, and a `.` strictly inside the part after it. */
  predicate IsEmail(s: string): (b: bool)
    ensures b ==> |s| >= 5 && '@' in s
  {
    (forall i | 0 <= i < |s| :: !IsWhitespace(s[i])) &&
    CountChar(s, '@') == 1 &&
    var at := IndexOf(s, '@');
    0 < at < |s| && HasInnerDot(s[at + 1..])
  }

  lemma CountCharAt(s: string, k: int, c: char)
    requires 0 <= k < |s| && s[k] == c
    ensures CountChar(s, c) == CountChar(s[..k], c) + 1 + CountChar(s[k + 1..], c)
  {
    assert s == s[..k] + ([c] + s[k + 1..]);
    CountCharAppend(s[..k], [c] + s[k + 1..], c);
    CountCharAppend([c], s[k + 1..], c);
  }

  lemma {:induction false} CountCharPositive(s: string, c: char)
    ensures CountChar(s, c) > 0 <==> c in s
  {
    if s != [] {
      CountCharPositive(s[1..], c);
      assert s == [s[0]] + s[1..];
    }
  }

  /** Exactly one `c`: the first one has no other after it. */
  lemma CountCharOne(s: string, c: char)
    ensures CountChar(s, c) == 1 <==> IndexOf(s, c) < |s| && forall p :: IndexOf(s, c) < p < |s| ==> s[p] != c
  {
    var k := IndexOf(s, c);
    if k < |s| {
      CountCharAt(s, k, c);
      assert c !in s[..k];
      CountCharPositive(s[..k], c);
      CountCharPositive(s[k + 1..], c);
      assert (c in s[k + 1..]) <==> exists p :: k < p < |s| && s[p] == c by {
        if c in s[k + 1..] {
          var j :| 0 <= j < |s[k + 1..]| && s[k + 1..][j] == c;
          assert s[k + 1 + j] == c;
        }
        if exists p :: k < p < |s| && s[p] == c {
          var p :| k < p < |s| && s[p] == c;
          assert s[k + 1..][p - k - 1] == c;
        }
      }
    } else {
      assert c !in s;
      CountCharPositive(s, c);
    }
  }

  /** The e-mail check agrees with the regular expression on every string. */
  lemma IsEmailMatchesPattern(s: string)
    ensures IsEmail(s) <==> EmailPattern(s)
  {
    CountCharOne(s, '@');
    var at := IndexOf(s, '@');
    if IsEmail(s) {
      var d := s[at + 1..];
      var k :| 0 < k < |d| - 1 && d[k] == '.';
      assert s[at + 1 + k] == '.';
      assert EmailMatchAt(s, at, at + 1 + k);
    }
    if EmailPattern(s) {
      var a, dot :| EmailMatchAt(s, a, dot);
      assert at == a;
      var d := s[at + 1..];
      assert d[dot - at - 1] == '.';
      assert HasInnerDot(d);
      forall i | 0 <= i < |s| ensures !IsWhitespace(s[i]) {
        if i != at {
          assert EmailChar(s[i]);
        }
      }
    }
  }

  /** The characters `.` does not match. */
  predicate IsLineTerminator(c: char)
  {
    c == '\n' || c == '\r' || c == '\U{2028}' || c == '\U{2029}'
  }

  /** The four lookaheads of `(?=.*[a-z])(?=.*[A-Z])(?=.*\d)(?=.*[@$!%*?&])`. */
  datatype CharClass = LowerCase | UpperCase | Digit | Special

  predicate InClass(c: char, k: CharClass)
  {
    match k
    case LowerCase => 'a' <= c <= 'z'
    case UpperCase => 'A' <= c <= 'Z'
    case Digit => '0' <= c <= '9'
    case Special => c == '@' || c == '$' || c == '!' || c == '%' || c == '*' || c == '?' || c == '&'
  }

  /** No line terminator in `pw[from..to]`. */
  ghost predicate NoBreak(pw: string, from: int, to: int)
  {
    0 <= from <= to <= |pw| &&
    forall r :: from <= r < to ==> !IsLineTerminator(pw[r])
  }

  /** `(?=.*[k])` succeeds at position `p`. */
  ghost predicate LooksAhead(pw: string, p: int, k: CharClass)
  {
    exists q :: 0 <= p <= q < |pw| && InClass(pw[q], k) && NoBreak(pw, p, q)
  }

  /** All four lookaheads succeed at position `p`. */
  ghost predicate AllAhead(pw: string, p: int)
  {
    LooksAhead(pw, p, LowerCase) && LooksAhead(pw, p, UpperCase) &&
    LooksAhead(pw, p, Digit) && LooksAhead(pw, p, Special)
  }

  /** `.test(pw)` of the complexity expression: some start position passes. */
  ghost predicate ComplexityPattern(pw: string)
  {
    exists p :: 0 <= p <= |pw| && AllAhead(pw, p)
  }

  predicate HasClass(line: string, k: CharClass)
  {
    exists i | 0 <= i < |line| :: InClass(line[i], k)
  }

  /** `line` holds a character of each of the four classes. */
  predicate HasAllClasses(line: string)
  {
    HasClass(line, LowerCase) && HasClass(line, UpperCase) && HasClass(line, Digit) && HasClass(line, Special)
  }

  /** Index of the first line terminator, or `|s|`. */
  function LineEnd(s: string): (e: nat)
    ensures e <= |s|
    ensures forall i :: 0 <= i < e ==> !IsLineTerminator(s[i])
    ensures e < |s| ==> IsLineTerminator(s[e])
  {
    if s == [] then 0 else if IsLineTerminator(s[0]) then 0 else 1 + LineEnd(s[1..])
  }

  /** A class present in a slice is present in the whole string. */
  lemma SliceClasses(s: string, lo: nat, hi: nat)
    requires lo <= hi <= |s|
    ensures HasAllClasses(s[lo..hi]) ==> HasAllClasses(s)
  {
    forall k: CharClass | HasClass(s[lo..hi], k) ensures HasClass(s, k) {
      var i :| 0 <= i < hi - lo && InClass(s[lo..hi][i], k);
      assert s[lo + i] == s[lo..hi][i];
    }
  }

  /** The complexity check: some line of the password holds all four
      classes, so a complex password holds one of each somewhere. */
  predicate IsComplex(pw: string): (b: bool)
    ensures b ==> HasAllClasses(pw)
    decreases |pw|
  {
    var e := LineEnd(pw);
    SliceClasses(pw, 0, e);
    HasAllClasses(pw[..e]) ||
    (e < |pw| && (assert pw[e + 1..] == pw[e + 1..|pw|]; SliceClasses(pw, e + 1, |pw|); IsComplex(pw[e + 1..])))
  }

  lemma LooksAheadShift(pw: string, e: nat, p: int, k: CharClass)
    requires e < |pw| && 0 <= p
    ensures LooksAhead(pw[e + 1..], p, k) <==> LooksAhead(pw, p + e + 1, k)
  {
    var rest := pw[e + 1..];
    if LooksAhead(rest, p, k) {
      var q :| p <= q < |rest| && InClass(rest[q], k) && NoBreak(rest, p, q);
      assert InClass(pw[q + e + 1], k);
      assert NoBreak(pw, p + e + 1, q + e + 1) by {
        forall r | p + e + 1 <= r < q + e + 1 ensures !IsLineTerminator(pw[r]) {
          assert pw[r] == rest[r - e - 1];
        }
      }
    }
    if LooksAhead(pw, p + e + 1, k) {
      var q :| p + e + 1 <= q < |pw| && InClass(pw[q], k) && NoBreak(pw, p + e + 1, q);
      assert InClass(rest[q - e - 1], k);
      assert NoBreak(rest, p, q - e - 1) by {
        forall r | p <= r < q - e - 1 ensures !IsLineTerminator(rest[r]) {
          assert rest[r] == pw[r + e + 1];
        }
      }
    }
  }

  /** Up to the first line terminator, a lookahead from the start finds a
      class exactly when the first line holds it. */
  lemma FirstLineAhead(pw: string, k: CharClass)
    ensures LooksAhead(pw, 0, k) <==> HasClass(pw[..LineEnd(pw)], k)
  {
    var e := LineEnd(pw);
    if LooksAhead(pw, 0, k) {
      var q :| 0 <= q < |pw| && InClass(pw[q], k) && NoBreak(pw, 0, q);
      assert q < e;
      assert pw[..e][q] == pw[q];
    }
    if HasClass(pw[..e], k) {
      var i :| 0 <= i < e && InClass(pw[..e][i], k);
      assert InClass(pw[i], k) && NoBreak(pw, 0, i);
    }
  }

  /** A lookahead from a position inside the first line succeeds only if it
      succeeds from the start of that line. */
  lemma AheadWithinLine(pw: string, p: int, k: CharClass)
    requires 0 <= p <= LineEnd(pw)
    requires LooksAhead(pw, p, k)
    ensures LooksAhead(pw, 0, k)
  {
    var q :| p <= q < |pw| && InClass(pw[q], k) && NoBreak(pw, p, q);
    assert q < LineEnd(pw);
    assert NoBreak(pw, 0, q);
  }

  /** All four lookaheads from the start hold exactly when the first line
      holds all four classes. */
  lemma FirstLineAllAhead(pw: string)
    ensures AllAhead(pw, 0) <==> HasAllClasses(pw[..LineEnd(pw)])
  {
    FirstLineAhead(pw, LowerCase);
    FirstLineAhead(pw, UpperCase);
    FirstLineAhead(pw, Digit);
    FirstLineAhead(pw, Special);
  }

  /** All four lookaheads at `p` in the text after the first line
      terminator are the lookaheads at the matching position of `pw`. */
  lemma RestAllAhead(pw: string, e: nat, p: int)
    requires e < |pw| && 0 <= p
    ensures AllAhead(pw[e + 1..], p) <==> AllAhead(pw, p + e + 1)
  {
    LooksAheadShift(pw, e, p, LowerCase);
    LooksAheadShift(pw, e, p, UpperCase);
    LooksAheadShift(pw, e, p, Digit);
    LooksAheadShift(pw, e, p, Special);
  }

  /** A password that passes the check matches the expression. */
  lemma {:induction false} ComplexMatches(pw: string)
    requires IsComplex(pw)
    ensures ComplexityPattern(pw)
    decreases |pw|
  {
    var e := LineEnd(pw);
    FirstLineAllAhead(pw);
    if !HasAllClasses(pw[..e]) {
      var rest := pw[e + 1..];
      ComplexMatches(rest);
      var p :| 0 <= p <= |rest| && AllAhead(rest, p);
      RestAllAhead(pw, e, p);
    }
  }

  /** A password the expression matches passes the check. */
  lemma {:induction false} MatchesComplex(pw: string)
    requires ComplexityPattern(pw)
    ensures IsComplex(pw)
    decreases |pw|
  {
    var e := LineEnd(pw);
    FirstLineAllAhead(pw);
    var p :| 0 <= p <= |pw| && AllAhead(pw, p);
    if p <= e {
      AheadWithinLine(pw, p, LowerCase);
      AheadWithinLine(pw, p, UpperCase);
      AheadWithinLine(pw, p, Digit);
      AheadWithinLine(pw, p, Special);
    } else {
      RestAllAhead(pw, e, p - e - 1);
      assert ComplexityPattern(pw[e + 1..]);
      MatchesComplex(pw[e + 1..]);
    }
  }

  /** The complexity check agrees with the regular expression on every
      string, line terminators included. */
  lemma IsComplexMatchesPattern(pw: string)
    ensures IsComplex(pw) <==> ComplexityPattern(pw)
  {
    if IsComplex(pw) {
      ComplexMatches(pw);
    }
    if ComplexityPattern(pw) {
      MatchesComplex(pw);
    }
  }

  /** On a password without line breaks the check asks only that each of
      the four classes occurs somewhere. */
  lemma SingleLineComplexity(pw: string)
    requires forall i :: 0 <= i < |pw| ==> !IsLineTerminator(pw[i])
    ensures IsComplex(pw) <==> HasAllClasses(pw)
  {
    assert LineEnd(pw) == |pw|;
    assert pw[..|pw|] == pw;
  }

  /** The display name sent by both forms: `${firstName} ${lastName}`. */
  function FullName(firstName: string, lastName: string): (name: string)
    ensures |name| == |firstName| + |lastName| + 1
  {
    firstName + " " + lastName
  }

  /** Splitting a display name on " " gives back a space-free first name,
      then the pieces of the last name. */
  lemma FullNameSplit(firstName: string, lastName: string)
    requires ' ' !in firstName
    ensures Split(FullName(firstName, lastName), ' ') == [firstName] + Split(lastName, ' ')
  {
    IndexOfPrefix(firstName, lastName, ' ');
    var name := FullName(firstName, lastName);
    assert name == firstName + [' '] + lastName;
    assert name[..|firstName|] == firstName;
    assert name[|firstName| + 1..] == lastName;
  }
}
